/** The `users` table of the transcription service: UNIQUE username and
    email, a password hash, a credit balance and an optional tenant. */
module Users {
  import opened Common
  import opened Queries

  const DEFAULT_SUBSCRIPTION := "free"

  /** One row; `passwordHash` is None for an object built without one. */
  datatype User = User(
    id: nat,
    username: string,
    email: string,
    passwordHash: Option<string>,
    phone: Option<string>,
    firstname: Option<string>,
    lastname: Option<string>,
    image: Option<seq<byte>>,
    creditPoint: int,
    createdAt: nat,
    updatedAt: nat,
    subscription: Option<string>,
    tenantId: Option<string>)

  /** The constructor with its defaults: no id, no hash, no profile fields,
      zero credits, the "free" plan and both timestamps at `now`. */
  function NewUser(username: string, email: string, now: nat): (u: User)
    ensures u.id == 0 && u.username == username && u.email == email
    ensures u.creditPoint == 0 && u.subscription == Some(DEFAULT_SUBSCRIPTION)
    ensures u.passwordHash.None? && u.tenantId.None? && u.image.None?
    ensures u.createdAt == now && u.updatedAt == now
  {
    User(0, username, email, None, None, None, None, None, 0, now, now, Some(DEFAULT_SUBSCRIPTION), None)
  }

  /** What `check_password_hash` does with a stored hash and a candidate. */
  datatype Check = Match | Mismatch | CheckRaises

  /** The `password` setter: the stored hash is what the hasher makes of the
      plain text, never the plain text itself unless the hasher returns it. */
  function SetPassword(u: User, plain: string, hasher: string -> string): (r: User)
    ensures r.passwordHash == Some(hasher(plain))
    ensures r == u.(passwordHash := r.passwordHash)
  {
    u.(passwordHash := Some(hasher(plain)))
  }

  /** `verify_password`: False without a stored hash and False when the
      check raises; otherwise the check's answer. */
  function VerifyPassword(u: User, plain: string, check: (string, string) -> Check): (ok: bool)
    ensures !Truthy(u.passwordHash) ==> !ok
    ensures ok <==> Truthy(u.passwordHash) && check(u.passwordHash.value, plain) == Match
  {
    if !Truthy(u.passwordHash) then false
    else match check(u.passwordHash.value, plain)
      case Match => true
      case Mismatch => false
      case CheckRaises => false
  }

  /** A password that was set verifies, for any hasher and checker that
      agree with each other and any hasher that never yields "". */
  lemma {:induction false} SetThenVerify(u: User, plain: string, hasher: string -> string, check: (string, string) -> Check)
    requires hasher(plain) != ""
    requires check(hasher(plain), plain) == Match
    ensures VerifyPassword(SetPassword(u, plain, hasher), plain, check)
  {
  }

  /** The rows in insertion order and the next AUTO_INCREMENT id. */
  datatype UserStore = UserStore(rows: seq<User>, nextId: nat)

  /** Ids are distinct, positive and below `nextId`; username and email are
      UNIQUE; `password` is NOT NULL. */
  ghost predicate WellFormed(st: UserStore) {
    && st.nextId >= 1
    && (forall i :: 0 <= i < |st.rows| ==> 1 <= st.rows[i].id < st.nextId && st.rows[i].passwordHash.Some?)
    && (forall i, j :: 0 <= i < j < |st.rows| ==>
          && st.rows[i].id != st.rows[j].id
          && st.rows[i].username != st.rows[j].username
          && st.rows[i].email != st.rows[j].email)
  }

  predicate HasId(rows: seq<User>, id: nat) {
    exists i :: 0 <= i < |rows| && rows[i].id == id
  }

  /** Another row holds this username or this email. */
  predicate Clashes(rows: seq<User>, u: User) {
    exists i :: 0 <= i < |rows| && rows[i].id != u.id && (rows[i].username == u.username || rows[i].email == u.email)
  }

  /** The statement fails: it writes a duplicate username or email, or a NULL
      into the NOT NULL `password` column. An `UPDATE` that matches no row
      writes nothing. */
  predicate SaveFails(rows: seq<User>, u: User) {
    (u.id == 0 || HasId(rows, u.id)) && (Clashes(rows, u) || u.passwordHash.None?)
  }

  /** The table, the caller's object afterwards, and whether `save` returned. */
  datatype Saved = Saved(store: UserStore, user: User, ok: bool)

  /** `save`: with an id, every column but `created_at` is written and
      `updated_at` is `now`; without one, the row is inserted with the next id
      and both timestamps at `now`. A failing statement is rolled back. */
  function SaveUser(st: UserStore, u: User, now: nat): (r: Saved)
    ensures r.ok <==> !SaveFails(st.rows, u)
    ensures !r.ok ==> r.store == st && r.user == u
    ensures WellFormed(st) ==> WellFormed(r.store)
    ensures r.ok && u.id == 0 ==>
      && r.user == u.(id := st.nextId, createdAt := now, updatedAt := now)
      && r.store == UserStore(st.rows + [r.user], st.nextId + 1)
    ensures r.ok && u.id != 0 ==> r.user == u.(updatedAt := now) && r.store.nextId == st.nextId && |r.store.rows| == |st.rows|
    ensures r.ok && u.id != 0 ==> forall i :: 0 <= i < |st.rows| && st.rows[i].id != u.id ==> r.store.rows[i] == st.rows[i]
    ensures r.ok && u.id != 0 ==> forall i :: 0 <= i < |st.rows| && st.rows[i].id == u.id ==>
      r.store.rows[i] == u.(createdAt := st.rows[i].createdAt, updatedAt := now)
  {
    if SaveFails(st.rows, u) then Saved(st, u, false)
    else if u.id != 0 then
      var rows := seq(|st.rows|, i requires 0 <= i < |st.rows| =>
        if st.rows[i].id == u.id then u.(createdAt := st.rows[i].createdAt, updatedAt := now) else st.rows[i]);
      Saved(UserStore(rows, st.nextId), u.(updatedAt := now), true)
    else
      var q := u.(id := st.nextId, createdAt := now, updatedAt := now);
      Saved(UserStore(st.rows + [q], st.nextId + 1), q, true)
  }

  /** A user read from a well-formed table, with its username, email and
      password hash kept, saves without error. */
  lemma {:induction false} SaveLoadedSucceeds(st: UserStore, row: User, u: User, now: nat)
    requires WellFormed(st) && row in st.rows
    requires u.id == row.id && u.username == row.username && u.email == row.email && u.passwordHash == row.passwordHash
    ensures SaveUser(st, u, now).ok
  {
    var j :| 0 <= j < |st.rows| && st.rows[j] == row;
    forall i | 0 <= i < |st.rows| && (st.rows[i].username == u.username || st.rows[i].email == u.email)
      ensures st.rows[i].id == u.id
    {
      assert i == j;
    }
  }

  /** `update_credits`: the balance result of the call. */
  datatype Credited = Credited(store: UserStore, user: User, ok: bool)

  /** `update_credits(amount)`: `credit_point = credit_point + amount` on the
      stored row and `+=` on the object. A None amount makes the `+=` raise
      inside the transaction, which is rolled back. */
  function AddCredits(st: UserStore, u: User, amount: Option<int>, now: nat): (r: Credited)
    ensures r.ok <==> amount.Some?
    ensures !r.ok ==> r.store == st && r.user == u
    ensures r.ok ==> r.user == u.(creditPoint := u.creditPoint + amount.value, updatedAt := now)
    ensures r.store.nextId == st.nextId && |r.store.rows| == |st.rows|
    ensures forall i :: 0 <= i < |st.rows| && st.rows[i].id != u.id ==> r.store.rows[i] == st.rows[i]
    ensures r.ok ==> forall i :: 0 <= i < |st.rows| && st.rows[i].id == u.id ==>
      r.store.rows[i] == st.rows[i].(creditPoint := st.rows[i].creditPoint + amount.value, updatedAt := now)
    ensures WellFormed(st) ==> WellFormed(r.store)
  {
    if amount.None? then Credited(st, u, false)
    else
      var rows := seq(|st.rows|, i requires 0 <= i < |st.rows| =>
        if st.rows[i].id == u.id
        then st.rows[i].(creditPoint := st.rows[i].creditPoint + amount.value, updatedAt := now)
        else st.rows[i]);
      Credited(UserStore(rows, st.nextId), u.(creditPoint := u.creditPoint + amount.value, updatedAt := now), true)
  }

  /** The stored balance of the user with this id, 0 when there is none. */
  function Balance(rows: seq<User>, id: nat): int {
    var u := ById(rows, id);
    if u.Some? then u.value.creditPoint else 0
  }

  /** A stored row is what its id reads back. */
  lemma {:induction false} ByIdOfRow(st: UserStore, row: User)
    requires WellFormed(st) && row in st.rows
    ensures ById(st.rows, row.id) == Some(row)
  {
    var j :| 0 <= j < |st.rows| && st.rows[j] == row;
    forall i | 0 <= i < j ensures st.rows[i].id != row.id {
    }
    assert IndexWhere(st.rows, (x: User) => x.id == row.id) == j;
  }

  /** After an update by id, that id reads back as written (with the stored
      `created_at`) and every other id reads back as before. */
  lemma {:induction false} ByIdAfterSave(st: UserStore, u: User, now: nat, id: nat)
    requires u.id != 0 && SaveUser(st, u, now).ok
    ensures id != u.id ==> ById(SaveUser(st, u, now).store.rows, id) == ById(st.rows, id)
    ensures id == u.id && ById(st.rows, id).Some? ==>
      ById(SaveUser(st, u, now).store.rows, id) == Some(u.(createdAt := ById(st.rows, id).value.createdAt, updatedAt := now))
  {
    var r := SaveUser(st, u, now).store;
    IndexWhereAgrees(st.rows, r.rows, (x: User) => x.id == id);
  }

  /** After `update_credits`, that id reads back with the increment and every
      other id reads back as before. */
  lemma {:induction false} ByIdAfterCredits(st: UserStore, u: User, amount: int, now: nat, id: nat)
    ensures id != u.id ==> ById(AddCredits(st, u, Some(amount), now).store.rows, id) == ById(st.rows, id)
    ensures id == u.id && ById(st.rows, id).Some? ==>
      var row := ById(st.rows, id).value;
      ById(AddCredits(st, u, Some(amount), now).store.rows, id) == Some(row.(creditPoint := row.creditPoint + amount, updatedAt := now))
  {
    var r := AddCredits(st, u, Some(amount), now).store;
    IndexWhereAgrees(st.rows, r.rows, (x: User) => x.id == id);
  }

  /** `update_credits` is an increment of the stored value, whatever the
      object held: a stale object cannot overwrite the balance. */
  lemma {:induction false} UpdateCreditsIncrements(st: UserStore, u: User, amount: int, now: nat)
    requires HasId(st.rows, u.id)
    ensures Balance(AddCredits(st, u, Some(amount), now).store.rows, u.id) == Balance(st.rows, u.id) + amount
  {
    ByIdAfterCredits(st, u, amount, now, u.id);
    var k :| 0 <= k < |st.rows| && st.rows[k].id == u.id;
    assert st.rows[k] in st.rows;
  }

  /** Saving a loaded user whose balance is kept moves no balance. */
  lemma {:induction false} SaveKeepsBalances(st: UserStore, row: User, u: User, now: nat)
    requires WellFormed(st) && row in st.rows
    requires u.id == row.id && u.username == row.username && u.email == row.email && u.passwordHash == row.passwordHash
    requires u.creditPoint == row.creditPoint
    ensures SaveUser(st, u, now).ok
    ensures forall id :: Balance(SaveUser(st, u, now).store.rows, id) == Balance(st.rows, id)
    ensures ById(SaveUser(st, u, now).store.rows, u.id).Some?
  {
    SaveLoadedSucceeds(st, row, u, now);
    ByIdOfRow(st, row);
    forall id ensures Balance(SaveUser(st, u, now).store.rows, id) == Balance(st.rows, id) {
      ByIdAfterSave(st, u, now, id);
    }
  }

  /** `update_credits` moves the balance of its own user by the amount and
      no other balance. */
  lemma {:induction false} CreditsMoveOneBalance(st: UserStore, u: User, amount: int, now: nat)
    requires HasId(st.rows, u.id)
    ensures forall id :: Balance(AddCredits(st, u, Some(amount), now).store.rows, id)
                      == Balance(st.rows, id) + (if id == u.id then amount else 0)
    ensures ById(AddCredits(st, u, Some(amount), now).store.rows, u.id).Some?
  {
    var k :| 0 <= k < |st.rows| && st.rows[k].id == u.id;
    assert st.rows[k] in st.rows;
    forall id ensures Balance(AddCredits(st, u, Some(amount), now).store.rows, id)
                   == Balance(st.rows, id) + (if id == u.id then amount else 0) {
      ByIdAfterCredits(st, u, amount, now, id);
    }
  }

  /** `get_by_id`. */
  function ById(rows: seq<User>, id: nat): (r: Option<User>)
    ensures r.Some? ==> r.value in rows && r.value.id == id
    ensures r.None? <==> forall x :: x in rows ==> x.id != id
  {
    var k := IndexWhere(rows, (x: User) => x.id == id);
    if k < 0 then None else Some(rows[k])
  }

  /** `get_by_username`. */
  function ByUsername(rows: seq<User>, username: string): (r: Option<User>)
    ensures r.Some? ==> r.value in rows && r.value.username == username
    ensures r.None? <==> forall x :: x in rows ==> x.username != username
  {
    FirstWhere(rows, (x: User) => x.username == username)
  }

  /** `get_by_email`. */
  function ByEmail(rows: seq<User>, email: string): (r: Option<User>)
    ensures r.Some? ==> r.value in rows && r.value.email == email
    ensures r.None? <==> forall x :: x in rows ==> x.email != email
  {
    FirstWhere(rows, (x: User) => x.email == email)
  }

  /** `get_by_username_or_email`. */
  function ByUsernameOrEmail(rows: seq<User>, identifier: string): (r: Option<User>)
    ensures r.Some? ==> r.value in rows && (r.value.username == identifier || r.value.email == identifier)
    ensures r.None? <==> forall x :: x in rows ==> x.username != identifier && x.email != identifier
  {
    FirstWhere(rows, (x: User) => x.username == identifier || x.email == identifier)
  }

  /** `get_by_tenant_id`: every user of the tenant, in table order, and the
      empty list when there is none; SQL `= NULL` matches no row. */
  function ByTenant(rows: seq<User>, tenantId: Option<string>): (r: seq<User>)
    ensures forall x :: x in r <==> x in rows && tenantId.Some? && x.tenantId == tenantId
    ensures (forall x :: x in rows ==> x.tenantId != tenantId) ==> r == []
    ensures |r| <= |rows|
  {
    if tenantId.None? then []
    else
      var r := Filter(rows, (x: User) => x.tenantId == tenantId);
      assert r != [] ==> r[0] in r;
      r
  }

  /** The `users` table as the model classes see it. */
  class UserTable {
    var rows: seq<User>
    var nextId: nat

    ghost predicate Valid()
      reads this
    {
      WellFormed(State())
    }

    function State(): UserStore
      reads this
    {
      UserStore(rows, nextId)
    }

    constructor ()
      ensures Valid() && State() == UserStore([], 1)
    {
      rows := [];
      nextId := 1;
    }

    /** `User.save()`: the caller's object comes back with id and timestamps set. */
    method Save(u: User, now: nat) returns (saved: User, ok: bool)
      requires Valid()
      modifies this
      ensures Valid()
      ensures Saved(State(), saved, ok) == SaveUser(old(State()), u, now)
    {
      var r := SaveUser(State(), u, now);
      rows, nextId := r.store.rows, r.store.nextId;
      saved, ok := r.user, r.ok;
    }

    /** `User.update_credits(amount)`. */
    method UpdateCredits(u: User, amount: Option<int>, now: nat) returns (updated: User, ok: bool)
      requires Valid()
      modifies this
      ensures Valid()
      ensures Credited(State(), updated, ok) == AddCredits(old(State()), u, amount, now)
    {
      var r := AddCredits(State(), u, amount, now);
      rows := r.store.rows;
      updated, ok := r.user, r.ok;
    }
  }
}
