/** Creating a tenant for a user in the tenant service: a name from the
    username or the email, a domain from the email, the `free` plan, and the
    new tenant's id or an error.

    The tenant API URL, which the configuration class does not define, is a
    parameter, as is the HTTP call. */
module TenantService {
  import opened Common

  const FREE_PLAN: string := "free"

  datatype TenantRequest = TenantRequest(name: string, domain: Option<string>, plan: string)

  /** What `requests.post` gives: a status with a body (None when it is not
      JSON, which raises), or a raised request error. */
  datatype PostOutcome = Responded(status: int, body: Option<map<string, string>>) | RequestError

  /** The result: the body's `tenant_id` (None when it has none), or one of
      the two exceptions. */
  datatype TenantCreation = Created(tenantId: Option<string>) | NotConfigured | CreationFailed

  /** `username or email.split('@')[0]`. */
  function TenantName(username: Option<string>, email: string): string {
    if Truthy(username) then username.value else Split(email, '@')[0]
  }

  /** `email.split('@')[1] if '@' in email else None`: the piece after the
      first `@` and before any second one. */
  function TenantDomain(email: string): (r: Option<string>)
    ensures r.None? <==> !Contains(email, '@')
  {
    if Contains(email, '@') then
      SplitHasTwoPieces(email, '@');
      Some(Split(email, '@')[1])
    else None
  }

  function Request(username: Option<string>, email: string): TenantRequest {
    TenantRequest(TenantName(username, email), TenantDomain(email), FREE_PLAN)
  }

  /** For `local@domain`, the tenant is named after the local part (without
      a username) and lives in that domain, on the free plan. */
  lemma {:induction false} RequestOfEmail(local: string, domain: string, username: Option<string>)
    requires !Contains(local, '@') && !Contains(domain, '@')
    ensures var r := Request(username, local + "@" + domain);
      && r.name == (if Truthy(username) then username.value else local)
      && r.domain == Some(domain)
      && r.plan == FREE_PLAN
  {
    var email := local + "@" + domain;
    assert email == local + ['@'] + domain;
    assert email[|local|] == '@';
    SplitAfterPiece(local, domain, '@');
    SplitWithoutSep(domain, '@');
    assert Split(email, '@') == [local, domain];
  }

  /** Of `a@b@c` only `b` is the domain. */
  lemma {:induction false} DomainIsSecondPiece(local: string, middle: string, rest: string)
    requires !Contains(local, '@') && !Contains(middle, '@')
    ensures TenantDomain(local + "@" + middle + "@" + rest) == Some(middle)
  {
    var email := local + "@" + middle + "@" + rest;
    assert email == local + ['@'] + (middle + ['@'] + rest);
    assert email[|local|] == '@';
    SplitAfterPiece(local, middle + ['@'] + rest, '@');
    SplitAfterPiece(middle, rest, '@');
  }

  /** An email without `@` names the tenant after the whole email and gives
      no domain. */
  lemma {:induction false} RequestWithoutAt(email: string)
    requires !Contains(email, '@')
    ensures Request(None, email) == TenantRequest(email, None, FREE_PLAN)
  {
    SplitWithoutSep(email, '@');
  }

  /** `create_tenant_for_user`. */
  function CreateTenant(apiUrl: Option<string>, username: Option<string>, email: string,
                        post: (string, TenantRequest) -> PostOutcome): TenantCreation
  {
    if !Truthy(apiUrl) then NotConfigured
    else
      match post(apiUrl.value + "/tenants/", Request(username, email))
      case RequestError => CreationFailed
      case Responded(status, body) =>
        if status != 201 || body.None? then CreationFailed
        else Created(if "tenant_id" in body.value then Some(body.value["tenant_id"]) else None)
  }

  /** Without a configured URL the call fails the same way whatever the
      tenant service would answer, so no request is made; with one, only a
      201 with a JSON body creates, and every other answer fails. */
  lemma {:induction false} CreateTenantOutcomes(apiUrl: Option<string>, username: Option<string>, email: string,
                                                post: (string, TenantRequest) -> PostOutcome,
                                                other: (string, TenantRequest) -> PostOutcome)
    ensures !Truthy(apiUrl) ==> CreateTenant(apiUrl, username, email, post) == NotConfigured
                                && CreateTenant(apiUrl, username, email, other) == NotConfigured
    ensures Truthy(apiUrl) ==>
      var answer := post(apiUrl.value + "/tenants/", Request(username, email));
      && (CreateTenant(apiUrl, username, email, post).Created? <==>
            answer.Responded? && answer.status == 201 && answer.body.Some?)
      && (CreateTenant(apiUrl, username, email, post).Created? ==>
            CreateTenant(apiUrl, username, email, post).tenantId
              == (if "tenant_id" in answer.body.value then Some(answer.body.value["tenant_id"]) else None))
      && CreateTenant(apiUrl, username, email, post) != NotConfigured
  {
  }
}
