/** Images as data URLs (the `data:` scheme of RFC 2397, section 3): an
    image given as bytes, an S3 URL or a local path becomes
    `data:<mime>;base64,<text>`, and a job id leads to the file it belongs
    to.

    Reading S3 or the disk and recognising an image's bytes are parameters:
    what reading yields (None where the read raises or the file is missing)
    and the format `imghdr.what` names. */
module ImageData {
  import opened Common
  import B = Base64
  import F = Files
  import Q = Queries

  /** What `get_base64_image` is given: None, a `bytes` value or a path. */
  datatype ImageSource = Missing | Bytes(data: seq<byte>) | Path(path: string)

  /** `not image_data_or_path`: None, `b""` and `""`. */
  predicate IsFalsy(src: ImageSource) {
    src.Missing? || (src.Bytes? && src.data == []) || (src.Path? && src.path == [])
  }

  const S3_SCHEME: string := "s3://"

  datatype S3Object = S3Object(bucket: string, key: string)

  /** `path.replace('s3://', '').split('/')`: the first piece is the bucket,
      the others joined by `/` the key. Every occurrence of the scheme is
      removed, not only the leading one. */
  function S3Location(path: string): S3Object {
    var parts := Split(ReplaceAll(path, S3_SCHEME, ""), '/');
    S3Object(parts[0], Join(parts[1..], '/'))
  }

  /** `s3://bucket/key` names that bucket and that key when neither holds a
      `:` (so that the scheme occurs only at the start) and the bucket has
      no `/`. */
  lemma {:induction false} S3LocationOfUrl(bucket: string, key: string)
    requires !Contains(bucket, '/') && !Contains(bucket, ':') && !Contains(key, ':')
    ensures S3Location(S3_SCHEME + bucket + "/" + key) == S3Object(bucket, key)
  {
    var rest := bucket + "/" + key;
    NoColonInBucketKey(bucket, key);
    SchemeStripped(rest);
    assert S3_SCHEME + bucket + "/" + key == S3_SCHEME + rest;
    assert rest == bucket + ['/'] + key;
    SplitAfterPiece(bucket, key, '/');
    var parts := Split(rest, '/');
    assert parts[1..] == Split(key, '/');
    JoinSplit(key, '/');
  }

  lemma {:induction false} NoColonInBucketKey(bucket: string, key: string)
    requires !Contains(bucket, ':') && !Contains(key, ':')
    ensures !Contains(bucket + "/" + key, ':')
  {
    var rest := bucket + "/" + key;
    forall i | 0 <= i < |rest| ensures rest[i] != ':' {
      if i < |bucket| {
        assert rest[i] == bucket[i];
      } else if i > |bucket| {
        assert rest[i] == key[i - |bucket| - 1];
      }
    }
  }

  /** Text after the scheme without a `:` loses exactly the scheme. */
  lemma {:induction false} SchemeStripped(rest: string)
    requires !Contains(rest, ':')
    ensures ReplaceAll(S3_SCHEME + rest, S3_SCHEME, "") == rest
  {
    var url := S3_SCHEME + rest;
    assert url[..|S3_SCHEME|] == S3_SCHEME && url[|S3_SCHEME|..] == rest;
    ReplaceAllAbsent(rest, S3_SCHEME, "", 2);
  }

  /** The extension table: png, jpg and jpeg, gif and webp have their own
      types; any other extension falls back to `image/jpeg`. */
  function MimeForExtension(ext: string): (mime: string)
    ensures StartsWith(mime, "image/")
    ensures ext == "png" ==> mime == "image/png"
    ensures ext == "jpg" || ext == "jpeg" ==> mime == "image/jpeg"
    ensures ext == "gif" ==> mime == "image/gif"
    ensures ext == "webp" ==> mime == "image/webp"
    ensures ext != "png" && ext != "gif" && ext != "webp" ==> mime == "image/jpeg"
  {
    if ext == "png" then "image/png"
    else if ext == "gif" then "image/gif"
    else if ext == "webp" then "image/webp"
    else "image/jpeg"
  }

  /** The type of a path: its extension, lower-cased, without the dot. */
  function PathMime(path: string): string {
    var ext := ToLower(Extension(path));
    MimeForExtension(if StartsWith(ext, ".") then ext[1..] else ext)
  }

  /** A path ending in `.suffix` has the type of the lower-cased suffix,
      whatever the case of its letters. */
  lemma {:induction false} PathMimeOfName(stem: string, suffix: string)
    requires HasStem(stem)
    requires forall i :: 0 <= i < |suffix| ==> suffix[i] != '.' && suffix[i] != '/'
    ensures PathMime(stem + "." + suffix) == MimeForExtension(ToLower(suffix))
  {
    ExtensionOfName(stem, suffix);
    var ext := ToLower("." + suffix);
    assert ext == "." + ToLower(suffix);
    assert ext[1..] == ToLower(suffix);
  }

  /** A path without an extension is taken for a JPEG. */
  lemma {:induction false} PathWithoutExtension(path: string)
    requires !Contains(path, '.')
    ensures PathMime(path) == "image/jpeg"
  {
    assert LastIndexOf(path, '.') < 0;
    assert Extension(path) == [];
    assert ToLower([]) == [];
  }

  /** `f'image/{format if format != "jpeg" else "jpg"}'` for detected
      bytes. */
  function BytesMime(format: string): (mime: string)
    ensures StartsWith(mime, "image/")
    ensures format == "jpeg" ==> mime == "image/jpg"
    ensures format != "jpeg" ==> mime[6..] == format
  {
    "image/" + (if format != "jpeg" then format else "jpg")
  }

  /** `f"data:{mime};base64,{b64}"`. */
  function DataUrl(mime: string, data: seq<byte>): string {
    "data:" + (mime + (";base64," + B.Encode(data)))
  }

  datatype DataUrlParts = DataUrlParts(mime: string, data: seq<byte>)

  /** Reading a base64 data URL back: the media type before the `;`, and
      the decoded text after `;base64,`. */
  function ParseDataUrl(url: string): Option<DataUrlParts> {
    if !StartsWith(url, "data:") then None
    else
      var parts := Split(url[5..], ';');
      if |parts| != 2 || !StartsWith(parts[1], ";base64,"[1..]) then None
      else
        var data := B.Decode(parts[1][7..]);
        if data.None? then None else Some(DataUrlParts(parts[0], data.value))
  }

  /** A data URL carries its type and exactly its bytes. */
  lemma {:induction false} ParseDataUrlOf(mime: string, data: seq<byte>)
    requires !Contains(mime, ';')
    ensures ParseDataUrl(DataUrl(mime, data)) == Some(DataUrlParts(mime, data))
  {
    var text := B.Encode(data);
    var url := DataUrl(mime, data);
    var tail := "base64," + text;
    assert url[..5] == "data:";
    assert url[5..] == mime + [';'] + tail;
    SplitAfterPiece(mime, tail, ';');
    B.EncodeAlphabet(data);
    assert !Contains(tail, ';') by {
      forall i | 0 <= i < |tail| ensures tail[i] != ';' {
        if i >= 7 {
          assert tail[i] == text[i - 7];
        }
      }
    }
    SplitWithoutSep(tail, ';');
    assert Split(url[5..], ';') == [mime, tail];
    assert tail[..7] == ";base64,"[1..];
    assert tail[7..] == text;
    B.DecodeEncode(data);
  }

  /** `get_base64_image`. Any exception gives None, which is where a read
      yields None. */
  function Base64Image(src: ImageSource, detect: seq<byte> -> Option<string>,
                       readS3: S3Object -> Option<seq<byte>>, readLocal: string -> Option<seq<byte>>): Option<string>
  {
    if IsFalsy(src) then None
    else match src
      case Missing => None
      case Bytes(data) =>
        var format := detect(data);
        if format.None? || format.value == [] then None
        else Some(DataUrl(BytesMime(format.value), data))
      case Path(path) =>
        var data := if StartsWith(path, S3_SCHEME) then readS3(S3Location(path)) else readLocal(path);
        if data.None? then None else Some(DataUrl(PathMime(path), data.value))
  }

  /** Bytes give a data URL exactly when they are present and their format is
      recognised, and it carries the bytes under `image/<format>`. */
  lemma {:induction false} BytesImage(data: seq<byte>, detect: seq<byte> -> Option<string>,
                                      readS3: S3Object -> Option<seq<byte>>, readLocal: string -> Option<seq<byte>>)
    requires detect(data).Some? ==> !Contains(detect(data).value, ';')
    ensures var r := Base64Image(Bytes(data), detect, readS3, readLocal);
      && (r.Some? <==> data != [] && detect(data).Some? && detect(data).value != [])
      && (r.Some? ==> ParseDataUrl(r.value) == Some(DataUrlParts(BytesMime(detect(data).value), data)))
  {
    var r := Base64Image(Bytes(data), detect, readS3, readLocal);
    if r.Some? {
      var format := detect(data).value;
      assert !Contains(BytesMime(format), ';') by {
        var m := BytesMime(format);
        forall i | 0 <= i < |m| ensures m[i] != ';' {
          if i >= 6 && format != "jpeg" {
            assert m[i] == format[i - 6];
          }
        }
      }
      ParseDataUrlOf(BytesMime(format), data);
    }
  }

  lemma MimeForExtensionHasNoSemicolon(ext: string)
    ensures !Contains(MimeForExtension(ext), ';')
  {
  }

  /** A path gives a data URL exactly when it is non-empty and reading it
      (from S3 for an `s3://` URL, from disk otherwise) yields bytes; the URL
      carries those bytes under the type of the path's extension. */
  lemma {:induction false} PathImage(path: string, detect: seq<byte> -> Option<string>,
                                     readS3: S3Object -> Option<seq<byte>>, readLocal: string -> Option<seq<byte>>)
    ensures var r := Base64Image(Path(path), detect, readS3, readLocal);
      var read := if StartsWith(path, S3_SCHEME) then readS3(S3Location(path)) else readLocal(path);
      && (r.Some? <==> path != [] && read.Some?)
      && (r.Some? ==> ParseDataUrl(r.value) == Some(DataUrlParts(PathMime(path), read.value)))
  {
    var read := if StartsWith(path, S3_SCHEME) then readS3(S3Location(path)) else readLocal(path);
    if path != [] && read.Some? {
      MimeForExtensionHasNoSemicolon(ToLower(Extension(path)));
      var ext := ToLower(Extension(path));
      MimeForExtensionHasNoSemicolon(if StartsWith(ext, ".") then ext[1..] else ext);
      ParseDataUrlOf(PathMime(path), read.value);
    }
  }

  /** A path in a directory-free name `stem`: some character of its last
      component before the extension is not a dot. */
  predicate HasStem(stem: string) {
    exists i :: 0 <= i < |stem| && stem[i] != '.' && stem[i] != '/' && forall j :: i < j < |stem| ==> stem[j] != '/'
  }

  lemma LowerJpg()
    ensures ToLower("jpg") == "jpg" && ToLower("JPG") == "jpg"
  {
    assert ToLower("jpg")[0] == 'j';
  }

  /** A `.jpg` path, in either case, is labelled `image/jpeg`. */
  lemma {:induction false} JpgPathMime(stem: string, suffix: string)
    requires HasStem(stem) && (suffix == "jpg" || suffix == "JPG")
    ensures PathMime(stem + "." + suffix) == "image/jpeg"
  {
    PathMimeOfName(stem, suffix);
    LowerJpg();
  }

  /** The same JPEG is labelled `image/jpg` when given as bytes and
      `image/jpeg` when given by a `.jpg` path. */
  lemma {:induction false} JpegLabels(data: seq<byte>, stem: string, detect: seq<byte> -> Option<string>,
                                      readS3: S3Object -> Option<seq<byte>>, readLocal: string -> Option<seq<byte>>)
    requires detect(data) == Some("jpeg") && data != [] && HasStem(stem)
    requires !StartsWith(stem + ".jpg", S3_SCHEME) && readLocal(stem + ".jpg") == Some(data)
    ensures Base64Image(Bytes(data), detect, readS3, readLocal) == Some(DataUrl("image/jpg", data))
    ensures Base64Image(Path(stem + ".jpg"), detect, readS3, readLocal) == Some(DataUrl("image/jpeg", data))
  {
    JpgPathMime(stem, "jpg");
    assert stem + ".jpg" == stem + "." + "jpg";
  }

  /** What `get_file_info_from_job_id` returns. */
  datatype FileInfo = FileInfo(fileName: string, userId: nat, filePath: string)

  /** Row `i` is the first with that job id. */
  predicate IsFirstOfJob(rows: seq<F.File>, jobId: string, i: nat)
    requires i < |rows|
  {
    rows[i].jobId == jobId && forall j :: 0 <= j < i ==> rows[j].jobId != jobId
  }

  /** `get_file_info_from_job_id`: the name, owner and key of the first file
      with that job id, or None. */
  function FileInfoOfJob(rows: seq<F.File>, jobId: string): (r: Option<FileInfo>)
    ensures r.None? <==> forall f :: f in rows ==> f.jobId != jobId
    ensures r.Some? ==> exists i :: (0 <= i < |rows| && IsFirstOfJob(rows, jobId, i)
                                     && r.value == FileInfo(rows[i].name, rows[i].userId, rows[i].path))
  {
    var f := F.ByJobId(rows, jobId);
    if f.None? then None
    else
      ghost var k := Q.IndexWhere(rows, (x: F.File) => x.jobId == jobId);
      assert rows[k] == f.value;
      Some(FileInfo(f.value.name, f.value.userId, f.value.path))
  }
}
