/** Pushing a user's profile to the tenant service: a `PUT` of the non-empty
    fields to `<base>/<tenant_id>`, reported as a boolean. The HTTP call is a
    parameter: the status it answers with, or that it raised. */
module TenantSync {
  import opened Common

  const BASE_URL: string := "http://127.0.0.1:8000/tenants"

  type Payload = map<string, string>

  /** What `session.put` does: answer with a status, or raise (a connection
      error, a timeout, any other request error or `AttributeError`). */
  datatype PutOutcome = Answered(status: int) | Raised

  /** The payload: a key for each truthy argument, with its value. */
  function SyncPayload(name: Option<string>, domain: Option<string>, plan: Option<string>): Payload {
    (if Truthy(name) then map["name" := name.value] else map[])
    + (if Truthy(domain) then map["domain" := domain.value] else map[])
    + (if Truthy(plan) then map["plan" := plan.value] else map[])
  }

  /** Exactly the truthy arguments are sent, unchanged, and nothing else. */
  lemma PayloadKeys(name: Option<string>, domain: Option<string>, plan: Option<string>)
    ensures var p := SyncPayload(name, domain, plan);
      && p.Keys <= {"name", "domain", "plan"}
      && ("name" in p <==> Truthy(name)) && ("name" in p ==> p["name"] == name.value)
      && ("domain" in p <==> Truthy(domain)) && ("domain" in p ==> p["domain"] == domain.value)
      && ("plan" in p <==> Truthy(plan)) && ("plan" in p ==> p["plan"] == plan.value)
  {
  }

  /** The payload built key by key, as the code does. */
  method BuildPayload(name: Option<string>, domain: Option<string>, plan: Option<string>) returns (payload: Payload)
    ensures payload == SyncPayload(name, domain, plan)
    ensures "name" in payload <==> Truthy(name)
    ensures "domain" in payload <==> Truthy(domain)
    ensures "plan" in payload <==> Truthy(plan)
  {
    payload := map[];
    if Truthy(name) {
      payload := payload["name" := name.value];
    }
    if Truthy(domain) {
      payload := payload["domain" := domain.value];
    }
    if Truthy(plan) {
      payload := payload["plan" := plan.value];
    }
  }

  /** `f"{AGENTIC_BASE_URL}/{tenant_id}"`; a None id prints as "None". */
  function SyncUrl(tenantId: Option<string>): string {
    BASE_URL + ("/" + ShowOption(tenantId))
  }

  /** The tenant id a sync URL addresses. */
  function TenantOfUrl(url: string): Option<string> {
    var prefix := BASE_URL + "/";
    if StartsWith(url, prefix) then Some(url[|prefix|..]) else None
  }

  /** The URL addresses exactly the tenant it was built for. */
  lemma {:induction false} SyncUrlAddressesTenant(tenantId: string)
    ensures TenantOfUrl(SyncUrl(Some(tenantId))) == Some(tenantId)
  {
    var prefix := BASE_URL + "/";
    var url := SyncUrl(Some(tenantId));
    assert url == prefix + tenantId;
    assert url[..|prefix|] == prefix;
    assert url[|prefix|..] == tenantId;
  }

  /** `sync_update_tenant`: True exactly when the `PUT` of the payload to the
      tenant's URL answers 200; a raised exception is False, never an
      exception. */
  method SyncUpdateTenant(tenantId: Option<string>, name: Option<string>, domain: Option<string>,
                          plan: Option<string>, put: (string, Payload) -> PutOutcome) returns (ok: bool)
    ensures ok <==> put(SyncUrl(tenantId), SyncPayload(name, domain, plan)) == Answered(200)
  {
    var payload := BuildPayload(name, domain, plan);
    var url := SyncUrl(tenantId);
    var response := put(url, payload);
    if response.Raised? {
      return false;
    }
    ok := response.status == 200;
  }
}
