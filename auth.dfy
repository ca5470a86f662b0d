/** The account endpoints of the transcription service: image type by magic
    bytes, the profile picture upload, signup, login, the profile update and
    the two tenant-sync hooks that rename users and set their plan.

    Decoding the base64 password, hashing and checking it, issuing a token
    and the calls to the tenant service are parameters. A handler's
    behaviour is a function from the `users` table and the request to the
    new table and the response; the class `Accounts` runs the same steps
    against a `UserTable` and is proved to end in that state. */
module Auth {
  import opened Common
  import U = Users
  import TS = TenantSync

  // ---------------------------------------------------------------------
  // Image type

  /** The JPEG start-of-image marker and the start of a JFIF segment. */
  const JPEG_SOI: seq<byte> := [0xFF, 0xD8, 0xFF]
  /** `\x89PNG`, the first four bytes of the PNG signature. */
  const PNG_MAGIC: seq<byte> := [0x89, 0x50, 0x4E, 0x47]
  /** The whole eight-byte signature of section 3.1 of RFC 2083. */
  const PNG_SIGNATURE: seq<byte> := [0x89, 0x50, 0x4E, 0x47, 0x0D, 0x0A, 0x1A, 0x0A]
  const GIF87A: seq<byte> := [0x47, 0x49, 0x46, 0x38, 0x37, 0x61]
  const GIF89A: seq<byte> := [0x47, 0x49, 0x46, 0x38, 0x39, 0x61]
  const RIFF: seq<byte> := [0x52, 0x49, 0x46, 0x46]
  const WEBP: seq<byte> := [0x57, 0x45, 0x42, 0x50]

  predicate HasPrefix(data: seq<byte>, prefix: seq<byte>) {
    |prefix| <= |data| && data[..|prefix|] == prefix
  }

  /** `header[8:12] == b'WEBP'`: a shorter header gives a shorter slice,
      which is never equal. */
  predicate WebpAt8(header: seq<byte>) {
    |header| >= 12 && header[8..12] == WEBP
  }

  /** `get_image_format`: the magic-byte tests, in the code's order. */
  function ImageFormat(header: seq<byte>): (r: Option<string>)
    ensures r.Some? ==> r.value in {"jpg", "png", "gif", "webp"}
  {
    if HasPrefix(header, JPEG_SOI) then Some("jpg")
    else if HasPrefix(header, PNG_MAGIC) then Some("png")
    else if HasPrefix(header, GIF87A) || HasPrefix(header, GIF89A) then Some("gif")
    else if HasPrefix(header, RIFF) && WebpAt8(header) then Some("webp")
    else None
  }

  /** `validate_image`: the format of the first 512 bytes with a leading
      dot. The stream is rewound afterwards, so only its bytes matter. */
  function ValidateImage(stream: seq<byte>): Option<string> {
    var header := if |stream| <= 512 then stream else stream[..512];
    var format := ImageFormat(header);
    if format.None? then None else Some("." + format.value)
  }

  // ---------------------------------------------------------------------
  // Requests and responses

  /** A string-valued JSON body. */
  type Body = map<string, string>

  /** `data.get(key)`. */
  function Field(data: Body, key: string): Option<string> {
    if key in data then Some(data[key]) else None
  }

  datatype Response = Response(status: nat, message: string)

  /** The table after a request, and the response. */
  datatype Outcome = Outcome(store: U.UserStore, response: Response)

  const MSG_UNEXPECTED := "An unexpected error occurred"
  /** The body of the 500 the framework sends for an uncaught exception. */
  const MSG_SERVER_ERROR := "Internal Server Error"
  const MSG_USER_NOT_FOUND := "User not found"

  // ---------------------------------------------------------------------
  // Profile picture

  const MAX_IMAGE_BYTES := 200 * 1024
  const MSG_NO_IMAGE := "No image file provided"
  const MSG_NO_SELECTED := "No selected file"
  const MSG_TOO_LARGE := "File size exceeds 200KB limit"
  const MSG_BAD_FORMAT := "Invalid image format"
  const MSG_NOT_SAVED := "Failed to save image"
  const MSG_IMAGE_UPDATED := "Profile image updated successfully"

  /** The `image` part of a multipart request. */
  datatype ImageUpload = ImageUpload(filename: string, data: seq<byte>)

  /** Whether an image's bytes are empty, as `not image` sees them. */
  predicate HasImage(u: U.User) {
    u.image.Some? && u.image.value != []
  }

  /** `upload_profile_image`: the part, its name, its size, then its format
      are checked before the user is looked up; the image is stored with
      `save` and read back. */
  function ProfileImageOutcome(st: U.UserStore, userId: nat, upload: Option<ImageUpload>, now: nat): Outcome {
    if upload.None? then Outcome(st, Response(400, MSG_NO_IMAGE))
    else if upload.value.filename == "" then Outcome(st, Response(400, MSG_NO_SELECTED))
    else if |upload.value.data| > MAX_IMAGE_BYTES then Outcome(st, Response(400, MSG_TOO_LARGE))
    else if ImageFormat(upload.value.data).None? then Outcome(st, Response(400, MSG_BAD_FORMAT))
    else
      var user := U.ById(st.rows, userId);
      if user.None? then Outcome(st, Response(404, MSG_USER_NOT_FOUND))
      else
        var saved := U.SaveUser(st, user.value.(image := Some(upload.value.data)), now);
        if !saved.ok then Outcome(saved.store, Response(500, MSG_UNEXPECTED))
        else
          var again := U.ById(saved.store.rows, userId);
          if again.None? then Outcome(saved.store, Response(500, MSG_UNEXPECTED))
          else if !HasImage(again.value) then Outcome(saved.store, Response(500, MSG_NOT_SAVED))
          else Outcome(saved.store, Response(200, MSG_IMAGE_UPDATED))
  }

  // ---------------------------------------------------------------------
  // Signup and login

  const SIGNUP_CREDITS := 100
  const MSG_BAD_PASSWORD := "Invalid password format"
  const MSG_REQUIRED := "Username, password and email are required"
  const MSG_USERNAME_TAKEN := "Username already exists"
  const MSG_EMAIL_TAKEN := "Email already exists"
  const MSG_NO_TENANT := "Failed to create tenant"
  const MSG_REGISTERED := "User registered successfully"
  const MSG_IDENTIFIER_REQUIRED := "Username or email is required"
  const MSG_BAD_CREDENTIALS := "Invalid username or password"

  /** What posting `{"name": name, "domain": None, "plan": None}` to the
      tenant service gives: a status and a JSON body (None when the body is
      not JSON), or a raised exception. */
  datatype TenantResponse = TenantResponse(status: int, body: Option<Body>) | TenantPostRaised

  /** `create_tenant_for_user` in this module: the body's `tenant_id` for a
      201, None for any other status, for a body without the key and for an
      exception. */
  function TenantIdOf(response: TenantResponse): (r: Option<string>)
    ensures r.Some? <==> response.TenantResponse? && response.status == 201 && response.body.Some?
                         && "tenant_id" in response.body.value
    ensures r.Some? ==> r.value == response.body.value["tenant_id"]
  {
    if response.TenantPostRaised? || response.status != 201 || response.body.None? then None
    else Field(response.body.value, "tenant_id")
  }

  /** `base64.b64decode(data.get('password')).decode('utf-8')`: None when the
      key is missing (decoding None raises) or when `decode` does. */
  function Password(data: Body, decode: string -> Option<string>): Option<string> {
    if "password" in data then decode(data["password"]) else None
  }

  /** The object `signup` saves: the given fields, 100 credits, the tenant
      and the hash of the password; the plan and image keep their defaults. */
  function SignupUser(data: Body, password: string, tenantId: string, hasher: string -> string, now: nat): (u: U.User)
    requires "username" in data && "email" in data
    ensures u.id == 0 && u.creditPoint == SIGNUP_CREDITS && u.tenantId == Some(tenantId)
    ensures u.username == data["username"] && u.email == data["email"]
    ensures u.passwordHash == Some(hasher(password))
  {
    var u := U.NewUser(data["username"], data["email"], now).(
      phone := Field(data, "phone"), firstname := Field(data, "firstname"), lastname := Field(data, "lastname"),
      creditPoint := SIGNUP_CREDITS, tenantId := Some(tenantId));
    U.SetPassword(u, password, hasher)
  }

  /** `signup`. The password is decoded before the required fields are
      checked; the username is checked before the email; the tenant is
      created only for a new username and email. */
  function SignupOutcome(st: U.UserStore, data: Body, decode: string -> Option<string>,
                  post: string -> TenantResponse, hasher: string -> string, now: nat): Outcome {
    var password := Password(data, decode);
    if password.None? then Outcome(st, Response(400, MSG_BAD_PASSWORD))
    else
      var username := Field(data, "username");
      var email := Field(data, "email");
      if !Truthy(username) || password.value == "" || !Truthy(email) then Outcome(st, Response(400, MSG_REQUIRED))
      else if U.ByUsername(st.rows, username.value).Some? then Outcome(st, Response(409, MSG_USERNAME_TAKEN))
      else if U.ByEmail(st.rows, email.value).Some? then Outcome(st, Response(409, MSG_EMAIL_TAKEN))
      else
        var tenantId := TenantIdOf(post(username.value));
        if !Truthy(tenantId) then Outcome(st, Response(500, MSG_NO_TENANT))
        else
          var saved := U.SaveUser(st, SignupUser(data, password.value, tenantId.value, hasher, now), now);
          if !saved.ok then Outcome(saved.store, Response(500, MSG_UNEXPECTED))
          else Outcome(saved.store, Response(201, MSG_REGISTERED))
  }

  /** A login either issues a token for a user or is refused. */
  datatype LoginReply = LoggedIn(token: string, user: U.User) | Refused(response: Response)

  /** The user a login is about: by username when one is given, otherwise,
      or when that finds nobody, by email when one is given. */
  function LoginCandidate(rows: seq<U.User>, username: Option<string>, email: Option<string>): Option<U.User> {
    var byName := if Truthy(username) then U.ByUsername(rows, username.value) else None;
    if byName.None? && Truthy(email) then U.ByEmail(rows, email.value) else byName
  }

  /** `login`. */
  function Login(rows: seq<U.User>, data: Body, decode: string -> Option<string>,
                 check: (string, string) -> U.Check, token: nat -> string): LoginReply {
    var password := Password(data, decode);
    if password.None? then Refused(Response(400, MSG_BAD_PASSWORD))
    else
      var username := Field(data, "username");
      var email := Field(data, "email");
      if !Truthy(username) && !Truthy(email) then Refused(Response(400, MSG_IDENTIFIER_REQUIRED))
      else
        var user := LoginCandidate(rows, username, email);
        if user.None? then Refused(Response(401, MSG_BAD_CREDENTIALS))
        else if !U.VerifyPassword(user.value, password.value, check) then Refused(Response(401, MSG_BAD_CREDENTIALS))
        else LoggedIn(token(user.value.id), user.value)
  }

  // ---------------------------------------------------------------------
  // Profile update

  const MSG_PROFILE_UPDATED := "Profile updated successfully"

  /** The keys present in a profile `PUT` body, with their values; `image`
      as the bytes the driver stores. */
  datatype ProfileFields = ProfileFields(
    email: Option<string>,
    phone: Option<string>,
    firstname: Option<string>,
    lastname: Option<string>,
    image: Option<seq<byte>>,
    password: Option<string>)

  /** The field-by-field assignments: each present key replaces its field,
      `password` through the hashing setter; nothing else changes. */
  function ApplyProfile(u: U.User, f: ProfileFields, hasher: string -> string): (r: U.User)
    ensures r.email == (if f.email.Some? then f.email.value else u.email)
    ensures r.phone == (if f.phone.Some? then f.phone else u.phone)
    ensures r.firstname == (if f.firstname.Some? then f.firstname else u.firstname)
    ensures r.lastname == (if f.lastname.Some? then f.lastname else u.lastname)
    ensures r.image == (if f.image.Some? then f.image else u.image)
    ensures r.passwordHash == (if f.password.Some? then Some(hasher(f.password.value)) else u.passwordHash)
    ensures r == u.(email := r.email, phone := r.phone, firstname := r.firstname, lastname := r.lastname,
                    image := r.image, passwordHash := r.passwordHash)
  {
    var a := if f.email.Some? then u.(email := f.email.value) else u;
    var b := if f.phone.Some? then a.(phone := f.phone) else a;
    var c := if f.firstname.Some? then b.(firstname := f.firstname) else b;
    var d := if f.lastname.Some? then c.(lastname := f.lastname) else c;
    var e := if f.image.Some? then d.(image := f.image) else d;
    if f.password.Some? then U.SetPassword(e, f.password.value, hasher) else e
  }

  /** The profile `PUT` (and `PUT /me`): load, assign, save. The tenant sync
      that follows does not change the table or the response. */
  function ProfileOutcome(st: U.UserStore, userId: nat, f: ProfileFields, hasher: string -> string, now: nat): Outcome {
    var user := U.ById(st.rows, userId);
    if user.None? then Outcome(st, Response(404, MSG_USER_NOT_FOUND))
    else
      var saved := U.SaveUser(st, ApplyProfile(user.value, f, hasher), now);
      if !saved.ok then Outcome(saved.store, Response(500, MSG_UNEXPECTED))
      else Outcome(saved.store, Response(200, MSG_PROFILE_UPDATED))
  }

  // ---------------------------------------------------------------------
  // Tenant sync

  const MSG_TENANT_REQUIRED := "tenant_id is required"
  const MSG_NO_TENANT_USERS := "No users found for tenant"

  /** One user as the loop leaves it before `save`: renamed for a truthy
      name, moved to a truthy plan. (`tenant_updated` also sets a `domain`
      attribute, which `save` does not write.) */
  function Synced(u: U.User, name: Option<string>, plan: Option<string>): (r: U.User)
    ensures r.username == (if Truthy(name) then name.value else u.username)
    ensures r.subscription == (if Truthy(plan) then plan else u.subscription)
    ensures r == u.(username := r.username, subscription := r.subscription)
  {
    var a := if Truthy(name) then u.(username := name.value) else u;
    if Truthy(plan) then a.(subscription := plan) else a
  }

  datatype SyncResult = SyncResult(store: U.UserStore, ok: bool)

  /** The loop: each user saved in turn; the first `save` that raises ends
      the request, with the earlier saves committed. */
  function SyncAll(st: U.UserStore, users: seq<U.User>, name: Option<string>, plan: Option<string>, now: nat): SyncResult
    decreases |users|
  {
    if users == [] then SyncResult(st, true)
    else
      var saved := U.SaveUser(st, Synced(users[0], name, plan), now);
      if !saved.ok then SyncResult(saved.store, false)
      else SyncAll(saved.store, users[1..], name, plan, now)
  }

  /** `tenant_updated`. A body without `tenant_id` raises `KeyError`, and an
      uncaught exception is the framework's 500. */
  function TenantUpdatedOutcome(st: U.UserStore, data: Body, now: nat): Outcome {
    if "tenant_id" !in data then Outcome(st, Response(500, MSG_SERVER_ERROR))
    else
      var users := U.ByTenant(st.rows, Some(data["tenant_id"]));
      if users == [] then Outcome(st, Response(404, MSG_USER_NOT_FOUND))
      else
        var r := SyncAll(st, users, Field(data, "name"), Field(data, "plan"), now);
        if !r.ok then Outcome(r.store, Response(500, MSG_SERVER_ERROR))
        else Outcome(r.store, Response(200, NatToString(|users|) + " user(s) updated from tenant"))
  }

  /** `sync_tenant_to_users`. */
  function SyncTenantOutcome(st: U.UserStore, data: Body, now: nat): Outcome {
    var tenantId := Field(data, "tenant_id");
    if !Truthy(tenantId) then Outcome(st, Response(400, MSG_TENANT_REQUIRED))
    else
      var users := U.ByTenant(st.rows, tenantId);
      if users == [] then Outcome(st, Response(404, MSG_NO_TENANT_USERS))
      else
        var r := SyncAll(st, users, Field(data, "name"), Field(data, "plan"), now);
        if !r.ok then Outcome(r.store, Response(500, MSG_SERVER_ERROR))
        else Outcome(r.store, Response(200, NatToString(|users|) + " user(s) synced"))
  }

  // ---------------------------------------------------------------------
  // The handlers over the table

  class Accounts {
    const users: U.UserTable

    constructor (users: U.UserTable)
      ensures this.users == users
    {
      this.users := users;
    }

    /** `POST /profile/image`. */
    method UploadProfileImage(userId: nat, upload: Option<ImageUpload>, now: nat) returns (response: Response)
      requires users.Valid()
      modifies users
      ensures users.Valid()
      ensures Outcome(users.State(), response) == ProfileImageOutcome(old(users.State()), userId, upload, now)
    {
      if upload.None? {
        return Response(400, MSG_NO_IMAGE);
      }
      var file := upload.value;
      if file.filename == "" {
        return Response(400, MSG_NO_SELECTED);
      }
      if |file.data| > MAX_IMAGE_BYTES {
        return Response(400, MSG_TOO_LARGE);
      }
      var format := ImageFormat(file.data);
      if format.None? {
        return Response(400, MSG_BAD_FORMAT);
      }
      var user := U.ById(users.rows, userId);
      if user.None? {
        return Response(404, MSG_USER_NOT_FOUND);
      }
      var _, ok := users.Save(user.value.(image := Some(file.data)), now);
      if !ok {
        return Response(500, MSG_UNEXPECTED);
      }
      var again := U.ById(users.rows, userId);
      if again.None? {
        return Response(500, MSG_UNEXPECTED);
      }
      if !HasImage(again.value) {
        return Response(500, MSG_NOT_SAVED);
      }
      response := Response(200, MSG_IMAGE_UPDATED);
    }

    /** `POST /signup`. */
    method Signup(data: Body, decode: string -> Option<string>, post: string -> TenantResponse,
                  hasher: string -> string, now: nat) returns (response: Response)
      requires users.Valid()
      modifies users
      ensures users.Valid()
      ensures Outcome(users.State(), response) == SignupOutcome(old(users.State()), data, decode, post, hasher, now)
    {
      var password := Password(data, decode);
      if password.None? {
        return Response(400, MSG_BAD_PASSWORD);
      }
      var username := Field(data, "username");
      var email := Field(data, "email");
      if !Truthy(username) || password.value == "" || !Truthy(email) {
        return Response(400, MSG_REQUIRED);
      }
      if U.ByUsername(users.rows, username.value).Some? {
        return Response(409, MSG_USERNAME_TAKEN);
      }
      if U.ByEmail(users.rows, email.value).Some? {
        return Response(409, MSG_EMAIL_TAKEN);
      }
      var tenantId := TenantIdOf(post(username.value));
      if !Truthy(tenantId) {
        return Response(500, MSG_NO_TENANT);
      }
      var _, ok := users.Save(SignupUser(data, password.value, tenantId.value, hasher, now), now);
      if !ok {
        return Response(500, MSG_UNEXPECTED);
      }
      response := Response(201, MSG_REGISTERED);
    }

    /** `PUT /profile` and `PUT /me`: after the save, the user's name and
        plan are pushed to the tenant service, whose answer is ignored. */
    method UpdateProfile(userId: nat, f: ProfileFields, hasher: string -> string,
                         put: (string, TS.Payload) -> TS.PutOutcome, now: nat) returns (response: Response)
      requires users.Valid()
      modifies users
      ensures users.Valid()
      ensures Outcome(users.State(), response) == ProfileOutcome(old(users.State()), userId, f, hasher, now)
    {
      var user := U.ById(users.rows, userId);
      if user.None? {
        return Response(404, MSG_USER_NOT_FOUND);
      }
      var changed := ApplyProfile(user.value, f, hasher);
      var saved, ok := users.Save(changed, now);
      if !ok {
        return Response(500, MSG_UNEXPECTED);
      }
      var _ := TS.SyncUpdateTenant(saved.tenantId, Some(saved.username), None, saved.subscription, put);
      response := Response(200, MSG_PROFILE_UPDATED);
    }

    /** The loop over a tenant's users. */
    method SyncUsers(list: seq<U.User>, name: Option<string>, plan: Option<string>, now: nat) returns (ok: bool)
      requires users.Valid()
      modifies users
      ensures users.Valid()
      ensures SyncResult(users.State(), ok) == SyncAll(old(users.State()), list, name, plan, now)
    {
      var i := 0;
      while i < |list|
        invariant 0 <= i <= |list| && users.Valid()
        invariant SyncAll(old(users.State()), list, name, plan, now) == SyncAll(users.State(), list[i..], name, plan, now)
      {
        assert list[i..][0] == list[i] && list[i..][1..] == list[i + 1..];
        var _, saved := users.Save(Synced(list[i], name, plan), now);
        if !saved {
          return false;
        }
        i := i + 1;
      }
      ok := true;
    }

    /** `POST /sync/tenant-updated`. */
    method TenantUpdated(data: Body, now: nat) returns (response: Response)
      requires users.Valid()
      modifies users
      ensures users.Valid()
      ensures Outcome(users.State(), response) == TenantUpdatedOutcome(old(users.State()), data, now)
    {
      if "tenant_id" !in data {
        return Response(500, MSG_SERVER_ERROR);
      }
      var list := U.ByTenant(users.rows, Some(data["tenant_id"]));
      if list == [] {
        return Response(404, MSG_USER_NOT_FOUND);
      }
      var ok := SyncUsers(list, Field(data, "name"), Field(data, "plan"), now);
      if !ok {
        return Response(500, MSG_SERVER_ERROR);
      }
      response := Response(200, NatToString(|list|) + " user(s) updated from tenant");
    }

    /** `POST /sync/tenant`. */
    method SyncTenantToUsers(data: Body, now: nat) returns (response: Response)
      requires users.Valid()
      modifies users
      ensures users.Valid()
      ensures Outcome(users.State(), response) == SyncTenantOutcome(old(users.State()), data, now)
    {
      var tenantId := Field(data, "tenant_id");
      if !Truthy(tenantId) {
        return Response(400, MSG_TENANT_REQUIRED);
      }
      var list := U.ByTenant(users.rows, tenantId);
      if list == [] {
        return Response(404, MSG_NO_TENANT_USERS);
      }
      var ok := SyncUsers(list, Field(data, "name"), Field(data, "plan"), now);
      if !ok {
        return Response(500, MSG_SERVER_ERROR);
      }
      response := Response(200, NatToString(|list|) + " user(s) synced");
    }
  }
}
