/** The upload side of the transcription service: file sizes in whole MB,
    the credit check and deduction of an upload, the S3 keys of a recording
    and of its summary, and the owner check in front of a transcript.

    S3, the PDF renderer and the clock are parameters: whether the upload
    succeeded, what reading a summary key yields and what rendering yields. */
module FileService {
  import opened Common
  import U = Users
  import F = Files

  const MB := 1024 * 1024

  /** `calculate_file_size_mb`: `math.ceil(bytes / (1024 * 1024))`. The
      divisor is a power of two, so the float quotient is exact. */
  function SizeMb(bytes: nat): (r: nat)
    ensures r * MB >= bytes
    ensures r > 0 ==> (r - 1) * MB < bytes
    ensures r == 0 <==> bytes == 0
  {
    (bytes + MB - 1) / MB
  }

  /** The S3 key of an upload: `uploads/{user_id}/{job_id}{extension}`. */
  function UploadKey(userId: nat, jobId: string, ext: string): string {
    "uploads/" + NatToString(userId) + "/" + (jobId + ext)
  }

  /** The key is three `/`-separated segments: the folder, the user id in
      decimal and the job id with the extension, when neither holds a `/`. */
  lemma {:induction false} UploadKeySegments(userId: nat, jobId: string, ext: string)
    requires !Contains(jobId + ext, '/')
    ensures Split(UploadKey(userId, jobId, ext), '/') == ["uploads", NatToString(userId), jobId + ext]
    ensures StartsWith(UploadKey(userId, jobId, ext), "uploads/")
  {
    var id := NatToString(userId);
    assert !Contains(id, '/') by {
      forall i | 0 <= i < |id| ensures id[i] != '/' {
        assert IsDigit(id[i]);
      }
    }
    assert !Contains("uploads", '/') by {
      forall i | 0 <= i < |"uploads"| ensures "uploads"[i] != '/' {
      }
    }
    SplitWithoutSep(jobId + ext, '/');
    SplitAfterPiece(id, jobId + ext, '/');
    SplitAfterPiece("uploads", id + "/" + (jobId + ext), '/');
    assert UploadKey(userId, jobId, ext) == "uploads" + "/" + (id + "/" + (jobId + ext));
    assert UploadKey(userId, jobId, ext)[..|"uploads/"|] == "uploads/";
  }

  // ---------------------------------------------------------------------
  // process_file_upload

  /** What `process_file_upload` raises. */
  datatype UploadError = UserNotFound | InsufficientCredits | StorageFailed

  /** The dictionary `process_file_upload` returns, or what it raises. */
  datatype UploadReply =
    | Uploaded(fileId: nat, fileName: string, filePath: string, fileSize: nat, creditUsed: nat, creditRemaining: int)
    | UploadFailed(error: UploadError)

  datatype Tables = Tables(users: U.UserStore, files: F.FileStore)

  datatype UploadOutcome = UploadOutcome(tables: Tables, reply: UploadReply)

  /** The upload, step by step: size, owner, credit check, key, S3, file
      record, deduction. `jobId` is what `generate_job_id` returned and
      `stored` whether the S3 upload returned. */
  function Upload(t: Tables, userId: nat, fileName: string, bytes: nat, jobId: string, stored: bool, now: nat): UploadOutcome {
    var size := SizeMb(bytes);
    var user := U.ById(t.users.rows, userId);
    if user.None? then UploadOutcome(t, UploadFailed(UserNotFound))
    else if user.value.creditPoint < size then UploadOutcome(t, UploadFailed(InsufficientCredits))
    else
      var path := UploadKey(userId, jobId, Extension(fileName));
      if !stored then UploadOutcome(t, UploadFailed(StorageFailed))
      else
        var saved := F.SaveFile(t.files, F.NewFile(0, userId, fileName, path, jobId, None, true, size, now), now);
        var credited := U.AddCredits(t.users, user.value, Some(-(size as int)), now);
        UploadOutcome(Tables(credited.store, saved.store),
                      Uploaded(saved.file.id, fileName, path, size, size, credited.user.creditPoint))
  }

  /** The upload is refused exactly when the user is missing, lacks credits
      for the size, or S3 fails, in that order of checks; a refused upload
      changes neither table. */
  lemma {:induction false} UploadRefusals(t: Tables, userId: nat, fileName: string, bytes: nat, jobId: string,
                                          stored: bool, now: nat)
    ensures var o := Upload(t, userId, fileName, bytes, jobId, stored, now);
      && (o.reply.UploadFailed? ==> o.tables == t)
      && (o.reply == UploadFailed(UserNotFound) <==> !U.HasId(t.users.rows, userId))
      && (o.reply == UploadFailed(InsufficientCredits) <==>
            U.HasId(t.users.rows, userId) && U.Balance(t.users.rows, userId) < SizeMb(bytes))
      && (o.reply == UploadFailed(StorageFailed) <==>
            U.HasId(t.users.rows, userId) && U.Balance(t.users.rows, userId) >= SizeMb(bytes) && !stored)
  {
    var user := U.ById(t.users.rows, userId);
    if user.Some? {
      assert user.value in t.users.rows;
      var k :| 0 <= k < |t.users.rows| && t.users.rows[k] == user.value;
    } else {
      assert !U.HasId(t.users.rows, userId) by {
        forall k | 0 <= k < |t.users.rows| ensures t.users.rows[k].id != userId {
          assert t.users.rows[k] in t.users.rows;
        }
      }
    }
  }

  /** An accepted upload deducts exactly its size from its own user's
      balance, which stays non-negative and is what the reply reports, moves
      no other balance, and appends one file row under the upload key. */
  lemma {:induction false} UploadDeducts(t: Tables, userId: nat, fileName: string, bytes: nat, jobId: string,
                                         stored: bool, now: nat)
    requires U.WellFormed(t.users) && F.WellFormed(t.files)
    ensures var o := Upload(t, userId, fileName, bytes, jobId, stored, now);
      o.reply.Uploaded? ==>
        && o.reply.creditUsed == o.reply.fileSize == SizeMb(bytes)
        && o.reply.creditRemaining == U.Balance(o.tables.users.rows, userId) >= 0
        && U.Balance(o.tables.users.rows, userId) == U.Balance(t.users.rows, userId) - SizeMb(bytes)
        && (forall id :: id != userId ==> U.Balance(o.tables.users.rows, id) == U.Balance(t.users.rows, id))
        && o.reply.filePath == UploadKey(userId, jobId, Extension(fileName))
        && o.tables.files.rows == t.files.rows + [o.tables.files.rows[|t.files.rows|]]
        && o.tables.files.rows[|t.files.rows|].id == o.reply.fileId == t.files.nextId
        && o.tables.files.rows[|t.files.rows|].userId == userId
        && o.tables.files.rows[|t.files.rows|].path == o.reply.filePath
        && o.tables.files.rows[|t.files.rows|].size == SizeMb(bytes)
  {
    var o := Upload(t, userId, fileName, bytes, jobId, stored, now);
    var user := U.ById(t.users.rows, userId);
    if o.reply.Uploaded? {
      var size := SizeMb(bytes);
      var k :| 0 <= k < |t.users.rows| && t.users.rows[k] == user.value;
      assert U.HasId(t.users.rows, user.value.id);
      U.ByIdOfRow(t.users, user.value);
      U.CreditsMoveOneBalance(t.users, user.value, -(size as int), now);
      var credited := U.AddCredits(t.users, user.value, Some(-(size as int)), now);
      assert o.tables.users == credited.store;
      assert credited.user.creditPoint == user.value.creditPoint - size;
    }
  }

  // ---------------------------------------------------------------------
  // Summary keys and the transcript

  /** `file_path.rsplit('.', 1)[0] + '_summary.json'`, as `save_edited_file`
      computes it. */
  function SummaryKeyOf(path: string): string {
    BeforeLast(path, '.') + "_summary.json"
  }

  predicate IsMedia(path: string) {
    EndsWith(path, ".mp3") || EndsWith(path, ".mp4") || EndsWith(path, ".wav")
  }

  /** The key `get_file_summary` reads: None when the path does not end in
      `.mp3`, `.mp4` or `.wav`. */
  function SummaryKey(path: string): (r: Option<string>)
    ensures r.Some? <==> IsMedia(path)
    ensures r.Some? ==> r.value == SummaryKeyOf(path)
  {
    if IsMedia(path) then Some(SummaryKeyOf(path)) else None
  }

  /** A recording `stem.mp3` (or `.mp4`, `.wav`) has its summary at
      `stem_summary.json`, whatever dots the stem holds. */
  lemma {:induction false} SummaryKeyOfMedia(stem: string, ext: string)
    requires ext == ".mp3" || ext == ".mp4" || ext == ".wav"
    ensures SummaryKey(stem + ext) == Some(stem + "_summary.json")
  {
    var path := stem + ext;
    assert path[|path| - |ext|..] == ext;
    assert path[|stem|] == '.';
    assert LastIndexOf(path, '.') == |stem| by {
      forall j | |stem| < j < |path| ensures path[j] != '.' {
        assert path[j] == ext[j - |stem|];
      }
    }
    assert path[..|stem|] == stem;
  }

  /** A summary as parsed JSON whose values are strings. */
  type Summary = map<string, string>

  /** `get_file_summary(file_path)`; `fetch` is reading and parsing a key,
      None when either raises. */
  function FileSummary(path: string, fetch: string -> Option<Summary>): (r: Option<Summary>)
    ensures !IsMedia(path) ==> r.None?
    ensures IsMedia(path) ==> r == fetch(SummaryKeyOf(path))
  {
    var key := SummaryKey(path);
    if key.None? then None else fetch(key.value)
  }

  /** What `get_transcript_pdf` returns: the PDF and the file name, or None
      and a message. */
  datatype TranscriptResult = Transcript(pdf: seq<byte>, name: string) | NoTranscript(message: string)

  const MSG_FILE_NOT_FOUND := "File not found"
  const MSG_SUMMARY_NOT_FOUND := "Summary not found"
  const MSG_PDF_FAILED := "Failed to convert summary to PDF"
  /** `str(KeyError('summary'))`. */
  const MSG_NO_SUMMARY_KEY := "'summary'"

  /** `get_transcript_pdf(file_id, user_id)`; `render` is `markdown_to_pdf`. */
  function TranscriptPdf(files: seq<F.File>, fileId: nat, userId: nat, fetch: string -> Option<Summary>,
                         render: string -> Option<seq<byte>>): TranscriptResult
  {
    var file := F.ById(files, fileId);
    if file.None? || file.value.userId != userId then NoTranscript(MSG_FILE_NOT_FOUND)
    else
      var summary := FileSummary(file.value.path, fetch);
      if summary.None? || summary.value == map[] then NoTranscript(MSG_SUMMARY_NOT_FOUND)
      else if "summary" !in summary.value then NoTranscript(MSG_NO_SUMMARY_KEY)
      else
        var pdf := render(summary.value["summary"]);
        if pdf.None? || pdf.value == [] then NoTranscript(MSG_PDF_FAILED)
        else Transcript(pdf.value, file.value.name)
  }

  /** Only the owner of a stored file gets its transcript, named after the
      file and rendered from its summary; a missing file and another user's
      file give the same answer. */
  lemma {:induction false} TranscriptNeedsOwner(files: seq<F.File>, fileId: nat, userId: nat,
                                                fetch: string -> Option<Summary>, render: string -> Option<seq<byte>>)
    ensures var r := TranscriptPdf(files, fileId, userId, fetch, render);
      && (F.ById(files, fileId).None? || F.ById(files, fileId).value.userId != userId <==> r == NoTranscript(MSG_FILE_NOT_FOUND))
      && (r.Transcript? ==>
            var file := F.ById(files, fileId).value;
            && file in files && file.id == fileId && file.userId == userId && r.name == file.name
            && IsMedia(file.path)
            && fetch(SummaryKeyOf(file.path)).Some?
            && render(fetch(SummaryKeyOf(file.path)).value["summary"]) == Some(r.pdf) && r.pdf != [])
  {
  }

  /** The upload and transcript operations over the two tables. */
  class Uploads {
    const users: U.UserTable
    const files: F.FileTable

    constructor (users: U.UserTable, files: F.FileTable)
      ensures this.users == users && this.files == files
    {
      this.users := users;
      this.files := files;
    }

    /** `process_file_upload(file, user_id)` for a file of `bytes` bytes. */
    method ProcessUpload(userId: nat, fileName: string, bytes: nat, jobId: string, stored: bool, now: nat)
      returns (reply: UploadReply)
      requires users.Valid() && files.Valid()
      modifies users, files
      ensures users.Valid() && files.Valid()
      ensures UploadOutcome(Tables(users.State(), files.State()), reply)
           == Upload(Tables(old(users.State()), old(files.State())), userId, fileName, bytes, jobId, stored, now)
    {
      var size := SizeMb(bytes);
      var user := U.ById(users.rows, userId);
      if user.None? {
        return UploadFailed(UserNotFound);
      }
      if user.value.creditPoint < size {
        return UploadFailed(InsufficientCredits);
      }
      var path := UploadKey(userId, jobId, Extension(fileName));
      if !stored {
        return UploadFailed(StorageFailed);
      }
      var saved := files.Save(F.NewFile(0, userId, fileName, path, jobId, None, true, size, now), now);
      var updated, _ := users.UpdateCredits(user.value, Some(-(size as int)), now);
      reply := Uploaded(saved.id, fileName, path, size, size, updated.creditPoint);
    }
  }
}
