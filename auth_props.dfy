/** What the account endpoints guarantee: image types by magic bytes, the
    order of the checks in each handler, the effect of each handler on the
    `users` table, and the tenant-sync loop. */
module AuthProps {
  import opened Common
  import U = Users
  import opened Auth

  // ---------------------------------------------------------------------
  // Image type

  /** The format each magic prefix stands for, regardless of the order of
      the tests. */
  predicate IsFormat(header: seq<byte>, format: string) {
    || (format == "jpg" && HasPrefix(header, JPEG_SOI))
    || (format == "png" && HasPrefix(header, PNG_MAGIC))
    || (format == "gif" && (HasPrefix(header, GIF87A) || HasPrefix(header, GIF89A)))
    || (format == "webp" && HasPrefix(header, RIFF) && WebpAt8(header))
  }

  lemma FirstByte(header: seq<byte>, prefix: seq<byte>)
    requires |prefix| > 0 && HasPrefix(header, prefix)
    ensures header[0] == prefix[0]
  {
    assert header[..|prefix|][0] == header[0];
  }

  /** The four magic prefixes start with different bytes, so at most one
      matches and the order of the tests does not matter: the result is
      the format whose magic the header carries, or None when it carries
      none. */
  lemma {:induction false} FormatIsTheMatchingMagic(header: seq<byte>, format: string)
    ensures ImageFormat(header) == Some(format) <==> IsFormat(header, format)
    ensures ImageFormat(header).None? <==>
      !IsFormat(header, "jpg") && !IsFormat(header, "png") && !IsFormat(header, "gif") && !IsFormat(header, "webp")
  {
    if HasPrefix(header, JPEG_SOI) {
      FirstByte(header, JPEG_SOI);
      assert !HasPrefix(header, PNG_MAGIC) by {
        if HasPrefix(header, PNG_MAGIC) {
          FirstByte(header, PNG_MAGIC);
        }
      }
      assert !HasPrefix(header, GIF87A) && !HasPrefix(header, GIF89A) by {
        if HasPrefix(header, GIF87A) {
          FirstByte(header, GIF87A);
        }
        if HasPrefix(header, GIF89A) {
          FirstByte(header, GIF89A);
        }
      }
      assert !HasPrefix(header, RIFF) by {
        if HasPrefix(header, RIFF) {
          FirstByte(header, RIFF);
        }
      }
    } else if HasPrefix(header, PNG_MAGIC) {
      FirstByte(header, PNG_MAGIC);
      assert !HasPrefix(header, GIF87A) && !HasPrefix(header, GIF89A) by {
        if HasPrefix(header, GIF87A) {
          FirstByte(header, GIF87A);
        }
        if HasPrefix(header, GIF89A) {
          FirstByte(header, GIF89A);
        }
      }
      assert !HasPrefix(header, RIFF) by {
        if HasPrefix(header, RIFF) {
          FirstByte(header, RIFF);
        }
      }
    } else if HasPrefix(header, GIF87A) || HasPrefix(header, GIF89A) {
      assert header[0] == 0x47 by {
        if HasPrefix(header, GIF87A) {
          FirstByte(header, GIF87A);
        } else {
          FirstByte(header, GIF89A);
        }
      }
      assert !HasPrefix(header, RIFF) by {
        if HasPrefix(header, RIFF) {
          FirstByte(header, RIFF);
        }
      }
    }
  }

  /** Any header beginning with the PNG signature is a PNG, and so is any
      header beginning with only its first four bytes. */
  lemma {:induction false} PngSignatureIsPng(tail: seq<byte>)
    ensures ImageFormat(PNG_SIGNATURE + tail) == Some("png")
    ensures ImageFormat(PNG_MAGIC + tail) == Some("png")
  {
    var h := PNG_SIGNATURE + tail;
    assert h[..4] == PNG_MAGIC;
    assert !HasPrefix(h, JPEG_SOI) by {
      if HasPrefix(h, JPEG_SOI) {
        FirstByte(h, JPEG_SOI);
      }
    }
    var g := PNG_MAGIC + tail;
    assert g[..4] == PNG_MAGIC;
    assert !HasPrefix(g, JPEG_SOI) by {
      if HasPrefix(g, JPEG_SOI) {
        FirstByte(g, JPEG_SOI);
      }
    }
  }

  /** A `RIFF` header is a WebP image only with `WEBP` at offset 8, which a
      header shorter than twelve bytes cannot have. */
  lemma {:induction false} ShortRiffIsNoImage(header: seq<byte>)
    requires HasPrefix(header, RIFF) && |header| < 12
    ensures ImageFormat(header).None?
  {
    FormatIsTheMatchingMagic(header, "webp");
    FirstByte(header, RIFF);
    assert !HasPrefix(header, JPEG_SOI) by {
      if HasPrefix(header, JPEG_SOI) {
        FirstByte(header, JPEG_SOI);
      }
    }
    assert !HasPrefix(header, PNG_MAGIC) by {
      if HasPrefix(header, PNG_MAGIC) {
        FirstByte(header, PNG_MAGIC);
      }
    }
    assert !HasPrefix(header, GIF87A) && !HasPrefix(header, GIF89A) by {
      if HasPrefix(header, GIF87A) {
        FirstByte(header, GIF87A);
      }
      if HasPrefix(header, GIF89A) {
        FirstByte(header, GIF89A);
      }
    }
  }

  lemma PrefixOfHeader(stream: seq<byte>, prefix: seq<byte>)
    requires |stream| > 512 && |prefix| <= 12
    ensures HasPrefix(stream[..512], prefix) <==> HasPrefix(stream, prefix)
  {
    assert stream[..512][..|prefix|] == stream[..|prefix|];
  }

  /** Every test looks at the first twelve bytes at most, so reading 512
      bytes gives the format of the whole stream. */
  lemma {:induction false} ValidateImageOfStream(stream: seq<byte>)
    ensures ValidateImage(stream) == (if ImageFormat(stream).Some? then Some("." + ImageFormat(stream).value) else None)
  {
    if |stream| > 512 {
      PrefixOfHeader(stream, JPEG_SOI);
      PrefixOfHeader(stream, PNG_MAGIC);
      PrefixOfHeader(stream, GIF87A);
      PrefixOfHeader(stream, GIF89A);
      PrefixOfHeader(stream, RIFF);
      assert stream[..512][8..12] == stream[8..12];
      assert ImageFormat(stream[..512]) == ImageFormat(stream);
    }
  }

  // ---------------------------------------------------------------------
  // Profile picture

  /** The refusals, in the code's order: a missing part, an empty name, a
      size over 200 KiB (whatever the format), then an unknown format, then
      an unknown user. None of them touches the table. */
  lemma {:induction false} ProfileImageRefusals(st: U.UserStore, userId: nat, upload: Option<ImageUpload>, now: nat)
    ensures var o := ProfileImageOutcome(st, userId, upload, now);
      && (upload.None? ==> o == Outcome(st, Response(400, MSG_NO_IMAGE)))
      && (upload.Some? && upload.value.filename == "" ==> o == Outcome(st, Response(400, MSG_NO_SELECTED)))
      && (upload.Some? && upload.value.filename != "" && |upload.value.data| > MAX_IMAGE_BYTES ==>
            o == Outcome(st, Response(400, MSG_TOO_LARGE)))
      && ((upload.Some? && upload.value.filename != "" && |upload.value.data| <= MAX_IMAGE_BYTES
           && (forall f :: !IsFormat(upload.value.data, f))) ==> o == Outcome(st, Response(400, MSG_BAD_FORMAT)))
      && (o.response.status == 400 || o.response.status == 404 ==> o.store == st)
  {
    if upload.Some? && (forall f :: !IsFormat(upload.value.data, f)) {
      FormatIsTheMatchingMagic(upload.value.data, "jpg");
    }
  }

  /** On a well-formed table the upload succeeds exactly when the part is
      a named image of at most 200 KiB in one of the four formats and the
      user exists; then that user's row holds the image (and a new
      `updated_at`) and every other row reads back as before. */
  lemma {:induction false} ProfileImageStored(st: U.UserStore, userId: nat, upload: Option<ImageUpload>, now: nat)
    requires U.WellFormed(st)
    ensures var o := ProfileImageOutcome(st, userId, upload, now);
      && (o.response.status == 200 <==>
            upload.Some? && upload.value.filename != "" && |upload.value.data| <= MAX_IMAGE_BYTES
            && ImageFormat(upload.value.data).Some? && U.HasId(st.rows, userId))
      && o.response.status != 500
      && (o.response.status == 200 ==>
            && U.ById(o.store.rows, userId) == Some(U.ById(st.rows, userId).value.(image := Some(upload.value.data), updatedAt := now))
            && forall id :: id != userId ==> U.ById(o.store.rows, id) == U.ById(st.rows, id))
  {
    var o := ProfileImageOutcome(st, userId, upload, now);
    var user := U.ById(st.rows, userId);
    assert user.Some? <==> U.HasId(st.rows, userId) by {
      if U.HasId(st.rows, userId) {
        var k :| 0 <= k < |st.rows| && st.rows[k].id == userId;
        assert st.rows[k] in st.rows;
      }
    }
    if upload.Some? && upload.value.filename != "" && |upload.value.data| <= MAX_IMAGE_BYTES
       && ImageFormat(upload.value.data).Some? && user.Some? {
      var data := upload.value.data;
      var row := user.value;
      var v := row.(image := Some(data));
      U.SaveLoadedSucceeds(st, row, v, now);
      U.ByIdAfterSave(st, v, now, userId);
      assert |data| >= 3;
      forall id | id != userId ensures U.ById(o.store.rows, id) == U.ById(st.rows, id) {
        U.ByIdAfterSave(st, v, now, id);
      }
    }
  }

  // ---------------------------------------------------------------------
  // Signup

  /** Some row already has this username. */
  predicate UsernameTaken(st: U.UserStore, username: string) {
    exists x :: x in st.rows && x.username == username
  }

  /** Some row already has this email. */
  predicate EmailTaken(st: U.UserStore, email: string) {
    exists x :: x in st.rows && x.email == email
  }

  /** The checks of `signup`, in order: the password must decode, then
      username, password and email must be non-empty, then the username must
      be free (checked before the email), then the email. Every refusal
      leaves the table as it was. */
  lemma {:induction false} SignupRefusals(st: U.UserStore, data: Body, decode: string -> Option<string>,
                                          post: string -> TenantResponse, hasher: string -> string, now: nat)
    ensures var o := SignupOutcome(st, data, decode, post, hasher, now);
      var password := Password(data, decode);
      && (password.None? ==> o.response == Response(400, MSG_BAD_PASSWORD))
      && ((password.Some? && (!Truthy(Field(data, "username")) || password.value == "" || !Truthy(Field(data, "email"))))
            ==> o.response == Response(400, MSG_REQUIRED))
      && ((password.Some? && password.value != "" && Truthy(Field(data, "username")) && Truthy(Field(data, "email"))
           && UsernameTaken(st, data["username"])) ==> o.response == Response(409, MSG_USERNAME_TAKEN))
      && ((password.Some? && password.value != "" && Truthy(Field(data, "username")) && Truthy(Field(data, "email"))
           && !UsernameTaken(st, data["username"]) && EmailTaken(st, data["email"]))
            ==> o.response == Response(409, MSG_EMAIL_TAKEN))
      && (o.response.status != 201 ==> o.store == st)
  {
  }

  /** On a well-formed table signup creates a user exactly when the checks
      pass and the tenant service returns a non-empty tenant id. The new
      row is appended with the next id, the given username and email, 100
      credits, that tenant and the hash of the password, and the table stays
      well-formed. */
  lemma {:induction false} SignupCreatesUser(st: U.UserStore, data: Body, decode: string -> Option<string>,
                                             post: string -> TenantResponse, hasher: string -> string, now: nat)
    requires U.WellFormed(st)
    ensures var o := SignupOutcome(st, data, decode, post, hasher, now);
      var password := Password(data, decode);
      && (o.response.status == 201 <==>
            && password.Some? && password.value != "" && Truthy(Field(data, "username")) && Truthy(Field(data, "email"))
            && !UsernameTaken(st, data["username"]) && !EmailTaken(st, data["email"])
            && Truthy(TenantIdOf(post(data["username"]))))
      && (o.response.status == 201 ==>
            var tenantId := TenantIdOf(post(data["username"])).value;
            var made := SignupUser(data, password.value, tenantId, hasher, now).(id := st.nextId, createdAt := now, updatedAt := now);
            && o.store == U.UserStore(st.rows + [made], st.nextId + 1)
            && made.username == data["username"] && made.email == data["email"]
            && made.creditPoint == SIGNUP_CREDITS && made.tenantId == Some(tenantId)
            && made.passwordHash == Some(hasher(password.value))
            && U.WellFormed(o.store))
  {
    var password := Password(data, decode);
    SignupRefusals(st, data, decode, post, hasher, now);
    if password.Some? && password.value != "" && Truthy(Field(data, "username")) && Truthy(Field(data, "email"))
       && !UsernameTaken(st, data["username"]) && !EmailTaken(st, data["email"]) {
      var tenantId := TenantIdOf(post(data["username"]));
      if Truthy(tenantId) {
        var u := SignupUser(data, password.value, tenantId.value, hasher, now);
        assert !U.Clashes(st.rows, u);
      }
    }
  }

  // ---------------------------------------------------------------------
  // Login

  /** A login succeeds exactly when the password decodes, a username or
      email is given, a user is found (by username first) and the password
      matches that user's hash. The token is for that user, who is the
      username's owner whenever the username exists. */
  lemma {:induction false} LoginSucceeds(rows: seq<U.User>, data: Body, decode: string -> Option<string>,
                                         check: (string, string) -> U.Check, token: nat -> string)
    ensures var r := Login(rows, data, decode, check, token);
      var username := Field(data, "username");
      var email := Field(data, "email");
      var user := LoginCandidate(rows, username, email);
      && (r.LoggedIn? <==>
            Password(data, decode).Some? && (Truthy(username) || Truthy(email)) && user.Some?
            && U.VerifyPassword(user.value, Password(data, decode).value, check))
      && (r.LoggedIn? ==>
            && r.user in rows && r.token == token(r.user.id)
            && ((Truthy(username) && r.user.username == username.value) || (Truthy(email) && r.user.email == email.value))
            && (Truthy(username) && U.ByUsername(rows, username.value).Some? ==> r.user == U.ByUsername(rows, username.value).value))
      && (r.Refused? ==> r.response.status == 400 || r.response == Response(401, MSG_BAD_CREDENTIALS))
  {
  }

  /** An unknown user and a wrong password cannot be told apart: both get
      the same 401 response. */
  lemma {:induction false} UnknownUserLooksLikeWrongPassword(rows: seq<U.User>, unknown: Body, wrong: Body,
                                                             decode: string -> Option<string>,
                                                             check: (string, string) -> U.Check, token: nat -> string)
    requires Password(unknown, decode).Some? && (Truthy(Field(unknown, "username")) || Truthy(Field(unknown, "email")))
    requires LoginCandidate(rows, Field(unknown, "username"), Field(unknown, "email")).None?
    requires Password(wrong, decode).Some? && (Truthy(Field(wrong, "username")) || Truthy(Field(wrong, "email")))
    requires var user := LoginCandidate(rows, Field(wrong, "username"), Field(wrong, "email"));
      user.Some? && !U.VerifyPassword(user.value, Password(wrong, decode).value, check)
    ensures Login(rows, unknown, decode, check, token) == Login(rows, wrong, decode, check, token)
                                                       == Refused(Response(401, MSG_BAD_CREDENTIALS))
  {
  }

  /** The row appended for a new username is what that username finds. */
  lemma {:induction false} ByUsernameOfAppended(rows: seq<U.User>, made: U.User)
    requires forall x :: x in rows ==> x.username != made.username
    ensures U.ByUsername(rows + [made], made.username) == Some(made)
  {
    assert made in rows + [made];
  }

  /** Signing up and then logging in with the same body and password logs
      in as the new user, given a hash that the checker accepts. */
  lemma {:induction false} LoginAfterSignup(st: U.UserStore, data: Body, decode: string -> Option<string>,
                                            post: string -> TenantResponse, hasher: string -> string,
                                            check: (string, string) -> U.Check, token: nat -> string, now: nat)
    requires U.WellFormed(st)
    requires SignupOutcome(st, data, decode, post, hasher, now).response.status == 201
    requires forall p :: hasher(p) != "" && check(hasher(p), p) == U.Match
    ensures var o := SignupOutcome(st, data, decode, post, hasher, now);
      var r := Login(o.store.rows, data, decode, check, token);
      && r.LoggedIn? && r.user.username == data["username"] && r.user.id == st.nextId
      && r.user.creditPoint == SIGNUP_CREDITS
  {
    SignupCreatesUser(st, data, decode, post, hasher, now);
    var o := SignupOutcome(st, data, decode, post, hasher, now);
    var password := Password(data, decode).value;
    var tenantId := TenantIdOf(post(data["username"])).value;
    var made := SignupUser(data, password, tenantId, hasher, now).(id := st.nextId, createdAt := now, updatedAt := now);
    assert !UsernameTaken(st, made.username);
    ByUsernameOfAppended(st.rows, made);
    assert hasher(password) != "" && check(hasher(password), password) == U.Match;
  }

  // ---------------------------------------------------------------------
  // Profile update

  /** Assigning the same fields twice is assigning them once, and a body
      with none of the keys leaves the user as it was. */
  lemma {:induction false} ApplyProfileLaws(u: U.User, f: ProfileFields, hasher: string -> string)
    ensures ApplyProfile(ApplyProfile(u, f, hasher), f, hasher) == ApplyProfile(u, f, hasher)
    ensures ApplyProfile(u, ProfileFields(None, None, None, None, None, None), hasher) == u
  {
  }

  /** Another row already has this email. */
  predicate EmailOfOther(st: U.UserStore, userId: nat, email: string) {
    exists x :: x in st.rows && x.id != userId && x.email == email
  }

  /** The user as loaded, with the fields assigned, saves unless another
      row has the new email: the username is unchanged and the password
      hash stays set. */
  lemma {:induction false} ProfileSaveFails(st: U.UserStore, row: U.User, f: ProfileFields, hasher: string -> string, now: nat)
    requires U.WellFormed(st) && row in st.rows
    ensures U.SaveUser(st, ApplyProfile(row, f, hasher), now).ok <==> !(f.email.Some? && EmailOfOther(st, row.id, f.email.value))
  {
    var v := ApplyProfile(row, f, hasher);
    var j :| 0 <= j < |st.rows| && st.rows[j] == row;
    assert U.HasId(st.rows, v.id);
    assert U.Clashes(st.rows, v) <==> f.email.Some? && EmailOfOther(st, row.id, f.email.value) by {
      if U.Clashes(st.rows, v) {
        var i :| 0 <= i < |st.rows| && st.rows[i].id != v.id && (st.rows[i].username == v.username || st.rows[i].email == v.email);
        assert i != j;
        assert st.rows[i] in st.rows;
      }
      if f.email.Some? && EmailOfOther(st, row.id, f.email.value) {
        var x :| x in st.rows && x.id != row.id && x.email == f.email.value;
        var i :| 0 <= i < |st.rows| && st.rows[i] == x;
      }
    }
  }

  lemma HasIdOfById(rows: seq<U.User>, id: nat)
    ensures U.ById(rows, id).Some? <==> U.HasId(rows, id)
  {
    if U.HasId(rows, id) {
      var k :| 0 <= k < |rows| && rows[k].id == id;
      assert rows[k] in rows;
    }
  }

  /** On a well-formed table the profile update answers 404 exactly for an
      unknown user and 500 exactly when the new email belongs to another
      user, and every refusal leaves the table as it was. */
  lemma {:induction false} ProfileUpdateStatus(st: U.UserStore, userId: nat, f: ProfileFields,
                                               hasher: string -> string, now: nat)
    requires U.WellFormed(st)
    ensures var o := ProfileOutcome(st, userId, f, hasher, now);
      && (o.response.status == 404 <==> !U.HasId(st.rows, userId))
      && (o.response.status == 500 <==> U.HasId(st.rows, userId) && f.email.Some? && EmailOfOther(st, userId, f.email.value))
      && (o.response.status != 200 ==> o.store == st)
      && U.WellFormed(o.store)
  {
    HasIdOfById(st.rows, userId);
    var user := U.ById(st.rows, userId);
    if user.Some? {
      ProfileSaveFails(st, user.value, f, hasher, now);
    }
  }

  /** A successful profile update writes the assigned fields (and a new
      `updated_at`) into the user's row and leaves every other row as it
      was. */
  lemma {:induction false} ProfileUpdateWrites(st: U.UserStore, userId: nat, f: ProfileFields,
                                               hasher: string -> string, now: nat)
    requires U.WellFormed(st)
    ensures var o := ProfileOutcome(st, userId, f, hasher, now);
      o.response.status == 200 ==>
        && U.ById(o.store.rows, userId) == Some(ApplyProfile(U.ById(st.rows, userId).value, f, hasher).(updatedAt := now))
        && forall id :: id != userId ==> U.ById(o.store.rows, id) == U.ById(st.rows, id)
  {
    var o := ProfileOutcome(st, userId, f, hasher, now);
    var user := U.ById(st.rows, userId);
    if user.Some? {
      var v := ApplyProfile(user.value, f, hasher);
      var j :| 0 <= j < |st.rows| && st.rows[j] == user.value;
      if U.SaveUser(st, v, now).ok {
        U.ByIdAfterSave(st, v, now, userId);
        forall id | id != userId ensures U.ById(o.store.rows, id) == U.ById(st.rows, id) {
          U.ByIdAfterSave(st, v, now, id);
        }
      }
    }
  }

  // ---------------------------------------------------------------------
  // Tenant sync

  /** The columns a plan-only sync must not touch agree. */
  predicate Kept(a: U.User, b: U.User) {
    a.username == b.username && a.email == b.email && a.passwordHash == b.passwordHash
    && a.creditPoint == b.creditPoint && a.tenantId == b.tenantId
  }

  /** The row with `u`'s id is there and agrees with `u` on those columns. */
  predicate Loaded(st: U.UserStore, u: U.User) {
    u.id != 0 && U.ById(st.rows, u.id).Some? && Kept(U.ById(st.rows, u.id).value, u)
  }

  /** The loop writes only the rows of the users it is given. */
  lemma {:induction false} SyncFrame(st: U.UserStore, users: seq<U.User>, name: Option<string>,
                                     plan: Option<string>, now: nat, id: nat)
    requires forall u :: u in users ==> u.id != id && u.id != 0
    ensures U.ById(SyncAll(st, users, name, plan, now).store.rows, id) == U.ById(st.rows, id)
    decreases |users|
  {
    if users != [] {
      var v := Synced(users[0], name, plan);
      assert users[0] in users;
      var saved := U.SaveUser(st, v, now);
      if saved.ok {
        U.ByIdAfterSave(st, v, now, id);
        assert forall u :: u in users[1..] ==> u in users;
        SyncFrame(saved.store, users[1..], name, plan, now, id);
      }
    }
  }

  /** One step of a plan-only sync: the save succeeds, every loaded user is
      still loaded, and the saved user carries the plan. */
  lemma {:induction false} SaveSyncedKeepsLoaded(st: U.UserStore, first: U.User, name: Option<string>,
                                                 plan: Option<string>, now: nat, u: U.User)
    requires U.WellFormed(st) && !Truthy(name) && Loaded(st, first) && Loaded(st, u)
    ensures var saved := U.SaveUser(st, Synced(first, name, plan), now);
      && saved.ok && U.WellFormed(saved.store) && Loaded(saved.store, u)
      && (u.id == first.id && Truthy(plan) ==> U.ById(saved.store.rows, u.id).value.subscription == plan)
  {
    var row := U.ById(st.rows, first.id).value;
    var v := Synced(first, name, plan);
    U.SaveLoadedSucceeds(st, row, v, now);
    U.ByIdAfterSave(st, v, now, u.id);
  }

  /** A sync without a new name never fails on a well-formed table: every
      listed user keeps username, email, password, credits and tenant, and
      moves to a truthy plan. */
  lemma {:induction false} SyncPlanOnly(st: U.UserStore, users: seq<U.User>, name: Option<string>,
                                        plan: Option<string>, now: nat)
    requires U.WellFormed(st) && !Truthy(name) && forall u :: u in users ==> Loaded(st, u)
    ensures var r := SyncAll(st, users, name, plan, now);
      && r.ok && U.WellFormed(r.store)
      && forall u :: u in users ==>
           Loaded(r.store, u) && (Truthy(plan) ==> U.ById(r.store.rows, u.id).value.subscription == plan)
    decreases |users|
  {
    if users != [] {
      var first := users[0];
      assert first in users;
      var saved := U.SaveUser(st, Synced(first, name, plan), now);
      forall u | u in users
        ensures Loaded(saved.store, u)
        ensures u.id == first.id && Truthy(plan) ==> U.ById(saved.store.rows, u.id).value.subscription == plan
      {
        SaveSyncedKeepsLoaded(st, first, name, plan, now, u);
      }
      SaveSyncedKeepsLoaded(st, first, name, plan, now, first);
      var rest := users[1..];
      assert forall u :: u in rest ==> u in users;
      SyncPlanOnly(saved.store, rest, name, plan, now);
      var r := SyncAll(st, users, name, plan, now);
      forall u | u in users
        ensures Loaded(r.store, u) && (Truthy(plan) ==> U.ById(r.store.rows, u.id).value.subscription == plan)
      {
        if u !in rest {
          if w :| w in rest && w.id == u.id {
            assert Loaded(r.store, w);
          } else {
            SyncFrame(saved.store, rest, name, plan, now, u.id);
          }
        }
      }
    }
  }

  /** Once one row carries the new name, no other user can be saved with
      it. */
  lemma {:induction false} SecondRenameFails(st: U.UserStore, k: nat, second: U.User, name: Option<string>,
                                             plan: Option<string>, now: nat)
    requires Truthy(name) && k < |st.rows| && st.rows[k].username == name.value && st.rows[k].id != second.id
    requires second.id != 0 && U.HasId(st.rows, second.id)
    ensures !U.SaveUser(st, Synced(second, name, plan), now).ok
  {
    assert U.Clashes(st.rows, Synced(second, name, plan));
  }

  /** The first save of a rename: when it succeeds the first user carries
      the new name, the second is as it was, and the second save then
      fails. */
  lemma {:induction false} RenameStep(st: U.UserStore, first: U.User, second: U.User, name: Option<string>,
                                      plan: Option<string>, now: nat)
    requires U.WellFormed(st) && Truthy(name)
    requires first in st.rows && second in st.rows && first.id != second.id
    ensures var saved := U.SaveUser(st, Synced(first, name, plan), now);
      saved.ok ==>
        && U.ById(saved.store.rows, first.id) == Some(Synced(first, name, plan).(updatedAt := now))
        && U.ById(saved.store.rows, second.id) == U.ById(st.rows, second.id)
        && !U.SaveUser(saved.store, Synced(second, name, plan), now).ok
  {
    var a := Synced(first, name, plan);
    var saved := U.SaveUser(st, a, now);
    var k :| 0 <= k < |st.rows| && st.rows[k] == first;
    var m :| 0 <= m < |st.rows| && st.rows[m] == second;
    if saved.ok {
      U.ByIdOfRow(st, first);
      U.ByIdAfterSave(st, a, now, first.id);
      U.ByIdAfterSave(st, a, now, second.id);
      assert saved.store.rows[k].username == name.value;
      assert saved.store.rows[m].id == second.id;
      SecondRenameFails(saved.store, k, second, name, plan, now);
    }
  }

  /** Renaming two users of the same tenant to one name cannot succeed, as
      usernames are unique: either nothing was written, or the first user
      was renamed and the second is as it was. */
  lemma {:induction false} RenameOfSharedTenantFails(st: U.UserStore, users: seq<U.User>, name: Option<string>,
                                                     plan: Option<string>, now: nat)
    requires U.WellFormed(st) && Truthy(name)
    requires |users| >= 2 && users[0] in st.rows && users[1] in st.rows && users[0].id != users[1].id
    ensures var r := SyncAll(st, users, name, plan, now);
      && !r.ok
      && (r.store == st || U.ById(r.store.rows, users[0].id) == Some(Synced(users[0], name, plan).(updatedAt := now)))
      && U.ById(r.store.rows, users[1].id) == U.ById(st.rows, users[1].id)
  {
    RenameStep(st, users[0], users[1], name, plan, now);
    var saved := U.SaveUser(st, Synced(users[0], name, plan), now);
    if saved.ok {
      assert users[1..][0] == users[1];
      assert SyncAll(st, users, name, plan, now) == SyncAll(saved.store, users[1..], name, plan, now);
    }
  }

  /** Without a new name every user of the tenant keeps its other columns
      and moves to a truthy plan. */
  lemma {:induction false} TenantSyncEffect(st: U.UserStore, tenantId: string, name: Option<string>,
                                            plan: Option<string>, now: nat)
    requires U.WellFormed(st) && !Truthy(name)
    ensures var users := U.ByTenant(st.rows, Some(tenantId));
      var r := SyncAll(st, users, name, plan, now);
      && r.ok && U.WellFormed(r.store)
      && (forall x :: x in st.rows && x.tenantId == Some(tenantId) ==>
            Loaded(r.store, x) && (Truthy(plan) ==> U.ById(r.store.rows, x.id).value.subscription == plan))
  {
    var users := U.ByTenant(st.rows, Some(tenantId));
    forall u | u in users ensures Loaded(st, u) {
      U.ByIdOfRow(st, u);
      var i :| 0 <= i < |st.rows| && st.rows[i] == u;
    }
    SyncPlanOnly(st, users, name, plan, now);
  }

  /** The tenant handlers leave the users of other tenants untouched. */
  lemma {:induction false} TenantSyncFrame(st: U.UserStore, tenantId: string, name: Option<string>,
                                           plan: Option<string>, now: nat, x: U.User)
    requires U.WellFormed(st) && x in st.rows && x.tenantId != Some(tenantId)
    ensures U.ById(SyncAll(st, U.ByTenant(st.rows, Some(tenantId)), name, plan, now).store.rows, x.id) == Some(x)
  {
    var users := U.ByTenant(st.rows, Some(tenantId));
    U.ByIdOfRow(st, x);
    var j :| 0 <= j < |st.rows| && st.rows[j] == x;
    forall u | u in users ensures u.id != x.id && u.id != 0 {
      var i :| 0 <= i < |st.rows| && st.rows[i] == u;
      assert i != j;
    }
    SyncFrame(st, users, name, plan, now, x.id);
  }

  /** `tenant_updated` reads `tenant_id`, `name` and `plan` only: the
      `domain` key changes nothing. */
  lemma {:induction false} TenantUpdatedIgnoresDomain(st: U.UserStore, data: Body, now: nat)
    ensures TenantUpdatedOutcome(st, data, now) == TenantUpdatedOutcome(st, data - {"domain"}, now)
  {
    assert Field(data - {"domain"}, "name") == Field(data, "name");
    assert Field(data - {"domain"}, "plan") == Field(data, "plan");
  }

  /** `tenant_updated`: a body without `tenant_id` is a 500 and a tenant
      without users a 404, both without writing; a plan-only update answers
      200 with the number of the tenant's users. */
  lemma {:induction false} TenantUpdatedResponses(st: U.UserStore, data: Body, now: nat)
    requires U.WellFormed(st)
    ensures var o := TenantUpdatedOutcome(st, data, now);
      && ("tenant_id" !in data ==> o == Outcome(st, Response(500, MSG_SERVER_ERROR)))
      && (("tenant_id" in data && forall x :: x in st.rows ==> x.tenantId != Some(data["tenant_id"]))
            ==> o == Outcome(st, Response(404, MSG_USER_NOT_FOUND)))
      && (("tenant_id" in data && !Truthy(Field(data, "name"))
           && exists x :: x in st.rows && x.tenantId == Some(data["tenant_id"])) ==>
            o.response == Response(200, NatToString(|U.ByTenant(st.rows, Some(data["tenant_id"]))|) + " user(s) updated from tenant"))
  {
    if "tenant_id" in data && !Truthy(Field(data, "name")) {
      if x :| x in st.rows && x.tenantId == Some(data["tenant_id"]) {
        assert x in U.ByTenant(st.rows, Some(data["tenant_id"]));
        TenantSyncEffect(st, data["tenant_id"], Field(data, "name"), Field(data, "plan"), now);
      }
    }
  }

  /** `sync_tenant_to_users`: an empty or missing `tenant_id` is a 400 and a
      tenant without users a 404, both without writing; a plan-only sync
      answers 200 with the number of the tenant's users. */
  lemma {:induction false} SyncTenantResponses(st: U.UserStore, data: Body, now: nat)
    requires U.WellFormed(st)
    ensures var o := SyncTenantOutcome(st, data, now);
      && (!Truthy(Field(data, "tenant_id")) ==> o == Outcome(st, Response(400, MSG_TENANT_REQUIRED)))
      && ((Truthy(Field(data, "tenant_id")) && forall x :: x in st.rows ==> x.tenantId != Some(data["tenant_id"]))
            ==> o == Outcome(st, Response(404, MSG_NO_TENANT_USERS)))
      && ((Truthy(Field(data, "tenant_id")) && !Truthy(Field(data, "name"))
           && exists x :: x in st.rows && x.tenantId == Some(data["tenant_id"])) ==>
            o.response == Response(200, NatToString(|U.ByTenant(st.rows, Some(data["tenant_id"]))|) + " user(s) synced"))
  {
    if Truthy(Field(data, "tenant_id")) && !Truthy(Field(data, "name")) {
      if x :| x in st.rows && x.tenantId == Some(data["tenant_id"]) {
        assert x in U.ByTenant(st.rows, Some(data["tenant_id"]));
        TenantSyncEffect(st, data["tenant_id"], Field(data, "name"), Field(data, "plan"), now);
      }
    }
  }
}
