/** The `user_files` table of the transcription service: one row per
    uploaded recording, with its owner, S3 key, size in MB and job id. */
module Files {
  import opened Common
  import opened Queries

  /** One row. `id` 0 stands for "no id yet"; `processed` is the stored
      0/1 column; `uploadTime` is a timestamp. */
  datatype File = File(
    id: nat,
    userId: nat,
    name: string,
    path: string,
    size: int,
    jobId: string,
    uploadTime: nat,
    processed: int)

  /** The constructor: `processed` becomes 1 or 0 by its truthiness, and a
      missing upload time becomes `now`. */
  function NewFile(id: nat, userId: nat, name: string, path: string, jobId: string,
                   uploadTime: Option<nat>, processed: bool, size: int, now: nat): (f: File)
    ensures f.processed == 0 || f.processed == 1
    ensures f.processed == 1 <==> processed
    ensures f.uploadTime == (if uploadTime.Some? then uploadTime.value else now)
    ensures f.id == id && f.userId == userId && f.name == name && f.path == path
    ensures f.jobId == jobId && f.size == size
  {
    File(id, userId, name, path, size, jobId, uploadTime.GetOr(now), if processed then 1 else 0)
  }

  /** The rows in insertion order and the next AUTO_INCREMENT id. */
  datatype FileStore = FileStore(rows: seq<File>, nextId: nat)

  /** Ids are distinct, positive and below `nextId`. */
  ghost predicate WellFormed(st: FileStore) {
    && st.nextId >= 1
    && (forall i :: 0 <= i < |st.rows| ==> 1 <= st.rows[i].id < st.nextId)
    && DistinctIds(st.rows)
  }

  /** The table after `save` and the caller's object afterwards. */
  datatype SavedFile = SavedFile(store: FileStore, file: File)

  /** The row an `UPDATE` leaves: name, path, job id, processed and size
      from the object; id, owner and upload time as stored. */
  function Updated(row: File, f: File): File {
    row.(name := f.name, path := f.path, jobId := f.jobId, processed := if f.processed != 0 then 1 else 0, size := f.size)
  }

  /** `File.save()`. With an id, the `UPDATE` writes name, path, job id,
      processed and size of the row with that id and nothing else. Without
      one, the `INSERT` adds a row with the next id and the database's
      timestamp `now`, and the object gets the id. */
  function SaveFile(st: FileStore, f: File, now: nat): (r: SavedFile)
    ensures WellFormed(st) ==> WellFormed(r.store)
    ensures f.id == 0 ==>
      && r.file == f.(id := st.nextId)
      && r.store == FileStore(st.rows + [f.(id := st.nextId, uploadTime := now, processed := if f.processed != 0 then 1 else 0)],
                              st.nextId + 1)
    ensures f.id != 0 ==> r.file == f && r.store.nextId == st.nextId && |r.store.rows| == |st.rows|
    ensures f.id != 0 ==> forall i :: 0 <= i < |st.rows| ==>
      r.store.rows[i] == (if st.rows[i].id == f.id then Updated(st.rows[i], f) else st.rows[i])
  {
    if f.id != 0 then
      var rows := seq(|st.rows|, i requires 0 <= i < |st.rows| =>
        if st.rows[i].id == f.id then Updated(st.rows[i], f) else st.rows[i]);
      SavedFile(FileStore(rows, st.nextId), f)
    else
      var row := f.(id := st.nextId, uploadTime := now, processed := if f.processed != 0 then 1 else 0);
      SavedFile(FileStore(st.rows + [row], st.nextId + 1), f.(id := st.nextId))
  }

  /** `File.delete()`: None stands for the `ValueError` raised without an
      id; otherwise the table without the row of that id. */
  function DeleteFile(st: FileStore, f: File): (r: Option<FileStore>)
    ensures r.None? <==> f.id == 0
    ensures r.Some? ==> r.value.nextId == st.nextId
    ensures r.Some? ==> forall x :: x in r.value.rows <==> x in st.rows && x.id != f.id
    ensures r.Some? && WellFormed(st) ==> WellFormed(r.value)
  {
    if f.id == 0 then None
    else
      var rows := Filter(st.rows, (x: File) => x.id != f.id);
      assert WellFormed(st) ==> WellFormed(FileStore(rows, st.nextId)) by {
        if WellFormed(st) {
          FilterKeepsWellFormed(st, (x: File) => x.id != f.id);
        }
      }
      Some(FileStore(rows, st.nextId))
  }

  ghost predicate DistinctIds(rows: seq<File>) {
    forall i, j :: 0 <= i < j < |rows| ==> rows[i].id != rows[j].id
  }

  /** A row before rows whose ids all differ from its own keeps the ids
      distinct. */
  lemma {:induction false} ConsDistinct(x: File, rest: seq<File>)
    requires DistinctIds(rest) && forall y :: y in rest ==> y.id != x.id
    ensures DistinctIds([x] + rest)
  {
    var r := [x] + rest;
    forall i, j | 0 <= i < j < |r| ensures r[i].id != r[j].id {
      assert r[j] == rest[j - 1];
      if i == 0 {
        assert rest[j - 1] in rest;
      } else {
        assert r[i] == rest[i - 1];
      }
    }
  }

  /** Dropping rows keeps the ids distinct. */
  lemma {:induction false} FilterDistinct(rows: seq<File>, p: File -> bool)
    requires DistinctIds(rows)
    ensures DistinctIds(Filter(rows, p))
    decreases |rows|
  {
    if rows != [] {
      var tail := rows[1..];
      assert DistinctIds(tail) by {
        forall i, j | 0 <= i < j < |tail| ensures tail[i].id != tail[j].id {
          assert tail[i] == rows[i + 1] && tail[j] == rows[j + 1];
        }
      }
      FilterDistinct(tail, p);
      var rest := Filter(tail, p);
      assert rows == [rows[0]] + tail;
      if p(rows[0]) {
        forall y | y in rest ensures y.id != rows[0].id {
          var k :| 0 <= k < |tail| && tail[k] == y;
          assert rows[k + 1] == y;
        }
        ConsDistinct(rows[0], rest);
        assert Filter(rows, p) == [rows[0]] + rest;
      } else {
        assert Filter(rows, p) == rest;
      }
    }
  }

  /** Dropping rows from a well-formed table leaves a well-formed table. */
  lemma {:induction false} FilterKeepsWellFormed(st: FileStore, p: File -> bool)
    requires WellFormed(st)
    ensures WellFormed(FileStore(Filter(st.rows, p), st.nextId))
  {
    FilterDistinct(st.rows, p);
    var r := Filter(st.rows, p);
    forall i | 0 <= i < |r| ensures 1 <= r[i].id < st.nextId {
      assert r[i] in r;
    }
  }

  /** `get_by_id`. */
  function ById(rows: seq<File>, id: nat): (r: Option<File>)
    ensures r.Some? ==> r.value in rows && r.value.id == id
    ensures r.None? <==> forall x :: x in rows ==> x.id != id
  {
    FirstWhere(rows, (x: File) => x.id == id)
  }

  /** `get_by_job_id`: the first row with that job id. */
  function ByJobId(rows: seq<File>, jobId: string): (r: Option<File>)
    ensures r.Some? ==> r.value in rows && r.value.jobId == jobId
    ensures r.None? <==> forall x :: x in rows ==> x.jobId != jobId
  {
    FirstWhere(rows, (x: File) => x.jobId == jobId)
  }

  function UploadTime(f: File): int {
    f.uploadTime
  }

  /** `get_user_files`: `WHERE user_id = ... ORDER BY upload_time DESC`. */
  function UserFiles(rows: seq<File>, userId: nat): seq<File> {
    SortDesc(Filter(rows, (x: File) => x.userId == userId), UploadTime)
  }

  /** A new row reads back by its new id, which no earlier row had. */
  lemma {:induction false} InsertReadsBack(st: FileStore, f: File, now: nat)
    requires WellFormed(st) && f.id == 0
    ensures var r := SaveFile(st, f, now);
      && r.file.id == st.nextId
      && (forall x :: x in st.rows ==> x.id != r.file.id)
      && ById(r.store.rows, r.file.id) == Some(r.store.rows[|st.rows|])
      && r.store.rows[|st.rows|].userId == f.userId && r.store.rows[|st.rows|].path == f.path
  {
    var r := SaveFile(st, f, now);
    forall x | x in st.rows ensures x.id != r.file.id {
    }
    assert r.store.rows == st.rows + [r.store.rows[|st.rows|]];
    assert r.store.rows[|st.rows|] in r.store.rows;
  }

  /** An update by id changes only that id's row, and never its owner or
      upload time; every other id reads back as before. */
  lemma {:induction false} UpdateKeepsOwner(st: FileStore, f: File, now: nat, id: nat)
    requires f.id != 0
    ensures var after := SaveFile(st, f, now).store.rows;
      && (id != f.id ==> ById(after, id) == ById(st.rows, id))
      && (id == f.id && ById(st.rows, id).Some? ==> ById(after, id) == Some(Updated(ById(st.rows, id).value, f)))
      && (id == f.id && ById(st.rows, id).Some? ==>
            ById(after, id).value.userId == ById(st.rows, id).value.userId
            && ById(after, id).value.uploadTime == ById(st.rows, id).value.uploadTime)
  {
    var after := SaveFile(st, f, now).store.rows;
    IndexWhereAgrees(st.rows, after, (x: File) => x.id == id);
  }

  /** After `delete` no row has the id, and every other id reads back as
      before. */
  lemma {:induction false} DeleteRemovesExactly(st: FileStore, f: File, id: nat)
    requires f.id != 0
    ensures var after := DeleteFile(st, f).value.rows;
      && ById(after, f.id).None?
      && (id != f.id ==> ById(after, id) == ById(st.rows, id))
  {
    if id != f.id {
      FirstWhereOfFilter(st.rows, (x: File) => x.id != f.id, (x: File) => x.id == id);
    }
  }

  /** `get_user_files` returns exactly the user's rows, each as often as it
      is stored, newest first. */
  lemma {:induction false} UserFilesAreTheUsers(rows: seq<File>, userId: nat)
    ensures forall x :: x in UserFiles(rows, userId) <==> x in rows && x.userId == userId
    ensures multiset(UserFiles(rows, userId)) == multiset(Filter(rows, (x: File) => x.userId == userId))
    ensures forall i, j :: 0 <= i < j < |UserFiles(rows, userId)| ==>
      UserFiles(rows, userId)[i].uploadTime >= UserFiles(rows, userId)[j].uploadTime
  {
    var mine := Filter(rows, (x: File) => x.userId == userId);
    var r := UserFiles(rows, userId);
    assert forall x :: x in r <==> x in multiset(r);
    assert forall x :: x in mine <==> x in multiset(mine);
  }

  /** The `user_files` table as the model class sees it. */
  class FileTable {
    var rows: seq<File>
    var nextId: nat

    ghost predicate Valid()
      reads this
    {
      WellFormed(State())
    }

    function State(): FileStore
      reads this
    {
      FileStore(rows, nextId)
    }

    constructor ()
      ensures Valid() && State() == FileStore([], 1)
    {
      rows := [];
      nextId := 1;
    }

    /** `File.save()`: the object comes back with its id. */
    method Save(f: File, now: nat) returns (saved: File)
      requires Valid()
      modifies this
      ensures Valid()
      ensures SavedFile(State(), saved) == SaveFile(old(State()), f, now)
    {
      var r := SaveFile(State(), f, now);
      rows, nextId := r.store.rows, r.store.nextId;
      saved := r.file;
    }

    /** `File.delete()`: `ok` is false where the code raises `ValueError`,
        and then the table is unchanged. */
    method Delete(f: File) returns (ok: bool)
      requires Valid()
      modifies this
      ensures Valid()
      ensures ok <==> f.id != 0
      ensures State() == (if ok then DeleteFile(old(State()), f).value else old(State()))
    {
      if f.id == 0 {
        return false;
      }
      rows := DeleteFile(State(), f).value.rows;
      ok := true;
    }
  }
}
