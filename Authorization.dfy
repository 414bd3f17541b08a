/**
 * The authorization service (Keycloak) as an abstract effect: a set of granted entries,
 * a permission set or a role set per organization, product or repository, and the log of
 * the calls made to it. Any call may fail; a failed call is still a call made, and
 * changes no entry.
 */
module Authorization {

  /** The hierarchy entity an entry belongs to. */
  datatype Scope = OrganizationScope(id: int) | ProductScope(id: int) | RepositoryScope(id: int)

  datatype Kind = Permissions | Roles

  datatype Grant = Grant(kind: Kind, scope: Scope)

  datatype Op = Create | Delete

  /** One call, e.g. `createOrganizationRoles(id)` is Call(Create, Roles, OrganizationScope(id)). */
  datatype Call = Call(op: Op, kind: Kind, scope: Scope)

  datatype AuthState = AuthState(grants: set<Grant>, calls: seq<Call>)

  /** The state after one call that fails or not. */
  function Invoke(a: AuthState, c: Call, fails: bool): (r: AuthState)
    ensures r.calls == a.calls + [c]
    ensures fails ==> r.grants == a.grants
    ensures !fails && c.op == Create ==> r.grants == a.grants + {Grant(c.kind, c.scope)}
    ensures !fails && c.op == Delete ==> r.grants == a.grants - {Grant(c.kind, c.scope)}
  {
    var grants :=
      if fails then a.grants
      else if c.op == Create then a.grants + {Grant(c.kind, c.scope)}
      else a.grants - {Grant(c.kind, c.scope)};
    AuthState(grants, a.calls + [c])
  }

  /**
   * `runCatching { createXPermissions(id); createXRoles(id) }`: permissions first, roles only
   * when permissions did not throw; a failure is swallowed. Only entries of `scope` change.
   */
  function ProvisionBestEffort(a: AuthState, scope: Scope, permissionsFail: bool, rolesFail: bool): (r: AuthState)
    ensures r.calls == a.calls + [Call(Create, Permissions, scope)]
                      + (if permissionsFail then [] else [Call(Create, Roles, scope)])
    ensures Grant(Permissions, scope) in r.grants <==> !permissionsFail || Grant(Permissions, scope) in a.grants
    ensures Grant(Roles, scope) in r.grants <==> (!permissionsFail && !rolesFail) || Grant(Roles, scope) in a.grants
    ensures forall g: Grant :: g.scope != scope ==> (g in r.grants <==> g in a.grants)
  {
    var afterPermissions := Invoke(a, Call(Create, Permissions, scope), permissionsFail);
    if permissionsFail then afterPermissions
    else Invoke(afterPermissions, Call(Create, Roles, scope), rolesFail)
  }

  /**
   * `runCatching { deleteXPermissions(id); deleteXRoles(id) }`: permissions first, roles only
   * when permissions did not throw; a failure is swallowed. Only entries of `scope` change.
   */
  function DeprovisionBestEffort(a: AuthState, scope: Scope, permissionsFail: bool, rolesFail: bool): (r: AuthState)
    ensures r.calls == a.calls + [Call(Delete, Permissions, scope)]
                      + (if permissionsFail then [] else [Call(Delete, Roles, scope)])
    ensures Grant(Permissions, scope) in r.grants <==> permissionsFail && Grant(Permissions, scope) in a.grants
    ensures Grant(Roles, scope) in r.grants <==> (permissionsFail || rolesFail) && Grant(Roles, scope) in a.grants
    ensures forall g: Grant :: g.scope != scope ==> (g in r.grants <==> g in a.grants)
  {
    var afterPermissions := Invoke(a, Call(Delete, Permissions, scope), permissionsFail);
    if permissionsFail then afterPermissions
    else Invoke(afterPermissions, Call(Delete, Roles, scope), rolesFail)
  }

  /** A provisioning that succeeded in full, undone by a cleanup that succeeded in full, leaves no entry of the scope. */
  lemma CleanupUndoesProvisioning(a: AuthState, scope: Scope)
    ensures var r := DeprovisionBestEffort(ProvisionBestEffort(a, scope, false, false), scope, false, false);
            Grant(Permissions, scope) !in r.grants && Grant(Roles, scope) !in r.grants
            && (forall g: Grant :: g.scope != scope ==> (g in r.grants <==> g in a.grants))
  {
  }

  /** The Keycloak-backed service: its state changes with every call. */
  class AuthorizationService {
    var state: AuthState

    constructor ()
      ensures state == AuthState({}, [])
    {
      state := AuthState({}, []);
    }

    method CreatePermissions(scope: Scope, fails: bool) returns (ok: bool)
      modifies this
      ensures ok == !fails
      ensures state == Invoke(old(state), Call(Create, Permissions, scope), fails)
    {
      state := Invoke(state, Call(Create, Permissions, scope), fails);
      ok := !fails;
    }

    method CreateRoles(scope: Scope, fails: bool) returns (ok: bool)
      modifies this
      ensures ok == !fails
      ensures state == Invoke(old(state), Call(Create, Roles, scope), fails)
    {
      state := Invoke(state, Call(Create, Roles, scope), fails);
      ok := !fails;
    }

    method DeletePermissions(scope: Scope, fails: bool) returns (ok: bool)
      modifies this
      ensures ok == !fails
      ensures state == Invoke(old(state), Call(Delete, Permissions, scope), fails)
    {
      state := Invoke(state, Call(Delete, Permissions, scope), fails);
      ok := !fails;
    }

    method DeleteRoles(scope: Scope, fails: bool) returns (ok: bool)
      modifies this
      ensures ok == !fails
      ensures state == Invoke(old(state), Call(Delete, Roles, scope), fails)
    {
      state := Invoke(state, Call(Delete, Roles, scope), fails);
      ok := !fails;
    }
  }
}
