/**
 * The image helpers of `src/lib/image-upload.ts`: the checks a file passes
 * before it is uploaded to the `products` storage bucket, the object name it
 * is stored under, and the object path recovered from a public URL when an
 * image is deleted.
 *
 * The clock (`Date.now()`) and the random suffix arrive as parameters; the
 * storage calls are abstract outcomes. Public URLs have the form
 * `<origin>/storage/v1/object/public/<bucket>/<object path>`.
 */
module ImageUpload {
  import opened Common

  const BUCKET: string := "products"
  const MAX_FILE_SIZE: nat := 5 * 1024 * 1024
  const NOT_AN_IMAGE: string := "Por favor, selecione um arquivo de imagem"
  const TOO_LARGE: string := "O arquivo é muito grande. Máximo 5MB"

  datatype FileInfo = FileInfo(name: string, mimeType: string, size: nat)

  datatype UploadResult = Refused(message: string) | UploadFailed | Uploaded(path: string, publicUrl: string)

  /** What deleting an image does: the object path it asks storage to remove, if any, and its answer. */
  datatype DeleteResult = DeleteResult(removed: Option<string>, ok: bool)

  predicate StartsWith(s: string, prefix: string)
  {
    |prefix| <= |s| && s[..|prefix|] == prefix
  }

  // ---------------------------------------------------------------------
  // Uploading

  /** The two checks before any upload: an `image/` type, then at most 5 MiB. */
  function CheckFile(file: FileInfo): (r: Option<string>)
    ensures r.None? <==> StartsWith(file.mimeType, "image/") && file.size <= MAX_FILE_SIZE
    ensures !StartsWith(file.mimeType, "image/") ==> r == Some(NOT_AN_IMAGE)
    ensures StartsWith(file.mimeType, "image/") && file.size > MAX_FILE_SIZE ==> r == Some(TOO_LARGE)
  {
    if !StartsWith(file.mimeType, "image/") then Some(NOT_AN_IMAGE)
    else if file.size > MAX_FILE_SIZE then Some(TOO_LARGE)
    else None
  }

  /** The limit is inclusive: a file of exactly 5 MiB is accepted, one byte more is not. */
  lemma SizeLimitInclusive(name: string, mimeType: string)
    requires StartsWith(mimeType, "image/")
    ensures CheckFile(FileInfo(name, mimeType, 5242880)).None?
    ensures CheckFile(FileInfo(name, mimeType, 5242881)) == Some(TOO_LARGE)
  {
  }

  /** `name.split('.').pop()`: the last `.`-separated part of the name. */
  function Extension(name: string): (ext: string)
    ensures '.' !in ext
    ensures |ext| <= |name| && name[|name| - |ext|..] == ext
  {
    var parts := Split(name, '.');
    JoinTailIsSuffix(name, '.', |parts| - 1);
    assert parts[|parts| - 1..] == [parts[|parts| - 1]];
    parts[|parts| - 1]
  }

  /** A name with a dot: the extension is everything after its last dot. */
  lemma ExtensionAfterLastDot(name: string)
    requires '.' in name
    ensures |Extension(name)| < |name|
    ensures name[|name| - |Extension(name)| - 1] == '.'
  {
    var parts := Split(name, '.');
    var k := |parts| - 1;
    JoinSplit(name, '.');
    if k == 0 {
      assert false;
    }
    JoinAt(parts, '.', k);
    assert parts[k..] == [parts[k]];
    var head := Join(parts[..k], '.');
    assert name == head + ['.'] + parts[k];
    assert name[|name| - |parts[k]| - 1] == (head + ['.'] + parts[k])[|head|];
  }

  /** A name without a dot is its own extension. */
  lemma ExtensionWithoutDot(name: string)
    requires '.' !in name
    ensures Extension(name) == name
  {
    SplitWithoutSeparator(name, '.');
  }

  /** `${folder}/${timestamp}-${random}.${ext}`. */
  function FileName(folder: string, timestamp: string, random: string, name: string): (path: string)
    ensures StartsWith(path, folder + "/")
    ensures |Extension(name)| < |path| && path[|path| - |Extension(name)|..] == Extension(name)
    ensures path[|path| - |Extension(name)| - 1] == '.'
  {
    var ext := Extension(name);
    var path := folder + "/" + timestamp + "-" + random + "." + ext;
    assert path[..|folder + "/"|] == folder + "/";
    assert path[|path| - |ext|..] == ext;
    path
  }

  function StoragePrefix(origin: string): string
  {
    origin + "/storage/v1/object/public"
  }

  /** `getPublicUrl(path)` on the products bucket. */
  function PublicUrl(origin: string, path: string): string
  {
    StoragePrefix(origin) + "/" + BUCKET + "/" + path
  }

  /**
   * `uploadImageToSupabase`: refuse a file that fails a check, otherwise
   * store it under its generated name and answer with its public URL.
   */
  function UploadImage(file: FileInfo, folder: string, timestamp: string, random: string,
                       storageFails: bool, origin: string): (r: UploadResult)
    ensures r.Refused? <==> CheckFile(file).Some?
    ensures r.Refused? ==> r.message == CheckFile(file).value
    ensures r.UploadFailed? <==> CheckFile(file).None? && storageFails
    ensures r.Uploaded? ==> (r.path == FileName(folder, timestamp, random, file.name)
                            && r.publicUrl == PublicUrl(origin, r.path))
  {
    var check := CheckFile(file);
    if check.Some? then Refused(check.value)
    else if storageFails then UploadFailed
    else
      var path := FileName(folder, timestamp, random, file.name);
      Uploaded(path, PublicUrl(origin, path))
  }

  // ---------------------------------------------------------------------
  // Deleting

  /**
   * The path as `deleteImageFromSupabase` computes it: the URL's
   * `/`-separated segments from the first `products` segment on, joined
   * again; nothing when no segment is `products`.
   */
  function ExtractPath(url: string): (r: Option<string>)
    ensures r.None? <==> BUCKET !in Split(url, '/')
    ensures r.Some? ==> |r.value| <= |url| && url[|url| - |r.value|..] == r.value
    ensures r.Some? ==> StartsWith(r.value, BUCKET)
  {
    var parts := Split(url, '/');
    if BUCKET !in parts then None
    else
      var i := FirstIndex(parts, BUCKET);
      JoinTailIsSuffix(url, '/', i);
      var path := Join(parts[i..], '/');
      assert path == BUCKET || path == BUCKET + ['/'] + Join(parts[i + 1..], '/') by {
        assert parts[i..][0] == BUCKET;
        assert parts[i..][1..] == parts[i + 1..];
      }
      assert StartsWith(path, BUCKET) by {
        assert path[..|BUCKET|] == BUCKET;
      }
      Some(path)
  }

  /** No storage segment in the origin part of a public URL. */
  predicate PlainOrigin(origin: string)
  {
    BUCKET !in Split(StoragePrefix(origin), '/')
  }

  lemma PublicUrlSegments(origin: string, path: string)
    ensures Split(PublicUrl(origin, path), '/') == Split(StoragePrefix(origin), '/') + [BUCKET] + Split(path, '/')
  {
    assert '/' !in BUCKET;
    SplitAround(StoragePrefix(origin), BUCKET, path, '/');
    assert PublicUrl(origin, path) == StoragePrefix(origin) + ['/'] + BUCKET + ['/'] + path;
  }

  /** Where the first `products` segment sits, both paths are the segments from or after it, joined. */
  lemma PathsFromSegments(url: string, prefix: seq<string>, rest: seq<string>)
    requires Split(url, '/') == prefix + [BUCKET] + rest
    requires BUCKET !in prefix
    ensures ExtractPath(url) == Some(Join([BUCKET] + rest, '/'))
    ensures rest != [] ==> ObjectPath(url) == Some(Join(rest, '/'))
  {
    var parts := Split(url, '/');
    assert parts == prefix + ([BUCKET] + rest);
    FirstIndexAfter(prefix, [BUCKET] + rest, BUCKET);
    assert FirstIndex(parts, BUCKET) == |prefix|;
    assert parts[|prefix|..] == [BUCKET] + rest;
    assert parts[|prefix| + 1..] == rest;
  }

  /**
   * On the public URL of a stored object, the path as computed keeps the
   * bucket's own segment in front of the object path.
   */
  lemma ExtractPathKeepsBucket(origin: string, path: string)
    requires PlainOrigin(origin)
    ensures ExtractPath(PublicUrl(origin, path)) == Some(BUCKET + "/" + path)
  {
    var rest := Split(path, '/');
    PublicUrlSegments(origin, path);
    PathsFromSegments(PublicUrl(origin, path), Split(StoragePrefix(origin), '/'), rest);
    JoinSplit(path, '/');
    assert ([BUCKET] + rest)[1..] == rest;
  }

  /**
   * So an image the helper uploaded is not the object its deletion names:
   * the object `products/1-abc.jpg` is asked for as `products/products/1-abc.jpg`.
   */
  lemma UploadedImageDeletionMisses(origin: string)
    requires PlainOrigin(origin)
    ensures var path := FileName("products", "1", "abc", "photo.jpg");
            ExtractPath(PublicUrl(origin, path)) != Some(path)
  {
    var path := FileName("products", "1", "abc", "photo.jpg");
    ExtractPathKeepsBucket(origin, path);
    assert |BUCKET + "/" + path| > |path|;
  }

  /** The object path a public URL names: the segments after the first `products` segment. */
  function ObjectPath(url: string): (r: Option<string>)
    ensures r.None? <==> BUCKET !in Split(url, '/')
  {
    var parts := Split(url, '/');
    if BUCKET !in parts then None
    else
      var i := FirstIndex(parts, BUCKET);
      Some(Join(parts[i + 1..], '/'))
  }

  /** The object path is the tail of the URL. */
  lemma ObjectPathIsSuffix(url: string)
    requires ObjectPath(url).Some?
    ensures |ObjectPath(url).value| <= |url|
    ensures url[|url| - |ObjectPath(url).value|..] == ObjectPath(url).value
  {
    var parts := Split(url, '/');
    var i := FirstIndex(parts, BUCKET);
    if i + 1 < |parts| {
      JoinTailIsSuffix(url, '/', i + 1);
    }
  }

  /** The object path of an object's public URL is that object's path: deletion finds what upload stored. */
  lemma ObjectPathOfPublicUrl(origin: string, path: string)
    requires PlainOrigin(origin)
    ensures ObjectPath(PublicUrl(origin, path)) == Some(path)
  {
    var rest := Split(path, '/');
    PublicUrlSegments(origin, path);
    PathsFromSegments(PublicUrl(origin, path), Split(StoragePrefix(origin), '/'), rest);
    JoinSplit(path, '/');
  }

  /**
   * `deleteImageFromSupabase` as written: with no `products` segment it
   * answers false without calling storage; otherwise it asks storage to
   * remove the path from the `products` segment on, and answers whether
   * storage reported no error.
   */
  function DeleteImage(url: string, storageFails: bool): (r: DeleteResult)
    ensures r.removed.None? <==> BUCKET !in Split(url, '/')
    ensures r.removed.None? ==> !r.ok
    ensures r.removed.Some? ==> (r.ok <==> !storageFails)
    ensures r.removed.Some? ==> StartsWith(r.removed.value, BUCKET)
    ensures r.removed == ExtractPath(url)
  {
    var path := ExtractPath(url);
    if path.None? then DeleteResult(None, false)
    else DeleteResult(path, !storageFails)
  }

  /**
   * As written, deleting an uploaded image names the bucket twice: the
   * object stored as `path` is asked for as `products/path`, so it is not
   * the object removed.
   */
  lemma UploadThenDeleteAsWritten(file: FileInfo, folder: string, timestamp: string, random: string, origin: string)
    requires PlainOrigin(origin)
    requires UploadImage(file, folder, timestamp, random, false, origin).Uploaded?
    ensures var up := UploadImage(file, folder, timestamp, random, false, origin);
            DeleteImage(up.publicUrl, false).removed == Some(BUCKET + "/" + up.path)
            && DeleteImage(up.publicUrl, false).removed != Some(up.path)
  {
    var up := UploadImage(file, folder, timestamp, random, false, origin);
    ExtractPathKeepsBucket(origin, up.path);
    assert |BUCKET + "/" + up.path| > |up.path|;
  }

  /**
   * The deletion the helper evidently intends: the same checks and answers,
   * but storage is asked to remove the object path after the bucket segment.
   */
  function DeleteImageCorrected(url: string, storageFails: bool): (r: DeleteResult)
    ensures r.removed.None? <==> BUCKET !in Split(url, '/')
    ensures r.removed.None? ==> !r.ok
    ensures r.removed.Some? ==> (r.ok <==> !storageFails)
    ensures r.removed == ObjectPath(url)
  {
    var path := ObjectPath(url);
    if path.None? then DeleteResult(None, false)
    else DeleteResult(path, !storageFails)
  }

  /** With the corrected deletion, an uploaded image is deleted under the name it was stored with. */
  lemma UploadThenDelete(file: FileInfo, folder: string, timestamp: string, random: string, origin: string)
    requires PlainOrigin(origin)
    requires UploadImage(file, folder, timestamp, random, false, origin).Uploaded?
    ensures var up := UploadImage(file, folder, timestamp, random, false, origin);
            DeleteImageCorrected(up.publicUrl, false) == DeleteResult(Some(up.path), true)
  {
    var up := UploadImage(file, folder, timestamp, random, false, origin);
    ObjectPathOfPublicUrl(origin, up.path);
  }
}
