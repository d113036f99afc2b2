/**
 * The authorization decision service behind `@ss.hasPermission(...)` and the
 * other access-check expressions. Permission and role checks are answered by
 * the external `PermissionApi`; scope checks are answered from the login user.
 */
module SecurityFrameworkService {

  import opened Common

  /**
   * The authenticated caller held for the current request. The holder
   * (`SecurityFrameworkUtils`) is not part of this model: the current login
   * user is passed in, `None` when nobody is logged in.
   */
  datatype LoginUser = LoginUser(id: Long, userType: int, scopes: seq<string>)

  /** `SecurityFrameworkUtils.getLoginUserId()`: the user's id, or `null` when there is no login user. */
  function LoginUserId(user: Option<LoginUser>): Option<Long>
  {
    match user
    case None => None
    case Some(u) => Some(u.id)
  }

  /** The external `PermissionApi`, injected at construction: both answers are opaque to this service. */
  datatype PermissionApi = PermissionApi(
    hasAnyPermissions: (Option<Long>, seq<string>) -> bool,
    hasAnyRoles: (Option<Long>, seq<string>) -> bool)

  /** A call the service makes to the `PermissionApi`. */
  datatype ApiCall =
    | HasAnyPermissionsCall(userId: Option<Long>, permissions: seq<string>)
    | HasAnyRolesCall(userId: Option<Long>, roles: seq<string>)

  /** The answer of a check, together with the `PermissionApi` calls made to reach it. */
  datatype Decision = Decision(granted: bool, apiCalls: seq<ApiCall>)

  /**
   * Hutool's `CollUtil.containsAny(owned, requested)`: some requested token is
   * among the owned ones (an empty collection on either side gives `false`).
   */
  function ContainsAny(owned: seq<string>, requested: seq<string>): (r: bool)
    ensures r <==> exists i :: 0 <= i < |requested| && requested[i] in owned
  {
    if |requested| == 0 then false
    else if requested[0] in owned then true
    else
      var r := ContainsAny(owned, requested[1..]);
      assert forall i :: 1 <= i < |requested| ==> requested[i] == requested[1..][i - 1];
      r
  }

  /** `SecurityFrameworkServiceImpl`, holding its one field. */
  datatype Service = Service(permissionApi: PermissionApi) {

    /**
     * `hasAnyPermissions(permissions...)`: one API call with the login-user id
     * (absent when nobody is logged in) and the tokens as given; its answer is the decision.
     */
    function HasAnyPermissions(user: Option<LoginUser>, permissions: seq<string>): (d: Decision)
      ensures d.apiCalls == [HasAnyPermissionsCall(LoginUserId(user), permissions)]
      ensures d.granted == permissionApi.hasAnyPermissions(LoginUserId(user), permissions)
    {
      var userId := LoginUserId(user);
      Decision(permissionApi.hasAnyPermissions(userId, permissions), [HasAnyPermissionsCall(userId, permissions)])
    }

    /** `hasPermission(permission)` is the one-token form of `hasAnyPermissions`. */
    function HasPermission(user: Option<LoginUser>, permission: string): (d: Decision)
      ensures d == HasAnyPermissions(user, [permission])
    {
      HasAnyPermissions(user, [permission])
    }

    /** `hasAnyRoles(roles...)`: the same delegation as permissions, to the role query. */
    function HasAnyRoles(user: Option<LoginUser>, roles: seq<string>): (d: Decision)
      ensures d.apiCalls == [HasAnyRolesCall(LoginUserId(user), roles)]
      ensures d.granted == permissionApi.hasAnyRoles(LoginUserId(user), roles)
    {
      var userId := LoginUserId(user);
      Decision(permissionApi.hasAnyRoles(userId, roles), [HasAnyRolesCall(userId, roles)])
    }

    /** `hasRole(role)` is the one-token form of `hasAnyRoles`. */
    function HasRole(user: Option<LoginUser>, role: string): (d: Decision)
      ensures d == HasAnyRoles(user, [role])
    {
      HasAnyRoles(user, [role])
    }

    /**
     * `hasAnyScopes(scopes...)`: decided locally, without the API. No login
     * user means `false`; otherwise some requested scope must be one of the user's.
     */
    function HasAnyScopes(user: Option<LoginUser>, scopes: seq<string>): (d: Decision)
      ensures d.apiCalls == []
      ensures user.None? ==> !d.granted
      ensures user.Some? ==> (d.granted <==> exists i :: 0 <= i < |scopes| && scopes[i] in user.value.scopes)
    {
      match user
      case None => Decision(false, [])
      case Some(u) => Decision(ContainsAny(u.scopes, scopes), [])
    }

    /** `hasScope(scope)` is the one-token form of `hasAnyScopes`: the user must hold that scope. */
    function HasScope(user: Option<LoginUser>, scope: string): (d: Decision)
      ensures d == HasAnyScopes(user, [scope])
      ensures d.granted <==> user.Some? && scope in user.value.scopes
    {
      HasAnyScopes(user, [scope])
    }
  }

  /** Permission checks depend on the login user only through its id, and never filter locally. */
  lemma PermissionsDependOnlyOnUserId(service: Service, u1: Option<LoginUser>, u2: Option<LoginUser>, permissions: seq<string>)
    requires LoginUserId(u1) == LoginUserId(u2)
    ensures service.HasAnyPermissions(u1, permissions) == service.HasAnyPermissions(u2, permissions)
    ensures service.HasAnyRoles(u1, permissions) == service.HasAnyRoles(u2, permissions)
  {
  }

  /** With nobody logged in the API is still asked, with an absent id; there is no local "deny". */
  lemma AnonymousChecksStillCallApi(service: Service, tokens: seq<string>)
    ensures service.HasAnyPermissions(None, tokens).apiCalls == [HasAnyPermissionsCall(None, tokens)]
    ensures service.HasAnyRoles(None, tokens).apiCalls == [HasAnyRolesCall(None, tokens)]
  {
  }

  /** Scope checks do not depend on the injected `PermissionApi` at all. */
  lemma ScopesIndependentOfApi(s1: Service, s2: Service, user: Option<LoginUser>, scopes: seq<string>)
    ensures s1.HasAnyScopes(user, scopes) == s2.HasAnyScopes(user, scopes)
  {
  }

  /**
   * Any-of semantics: a check on a concatenation of token lists succeeds
   * exactly when it succeeds on one of the parts.
   */
  lemma {:induction false} ScopesAnyOfSplits(service: Service, user: Option<LoginUser>, a: seq<string>, b: seq<string>)
    ensures service.HasAnyScopes(user, a + b).granted
        <==> service.HasAnyScopes(user, a).granted || service.HasAnyScopes(user, b).granted
  {
    if user.Some? {
      var owned := user.value.scopes;
      if service.HasAnyScopes(user, a + b).granted {
        var i :| 0 <= i < |a + b| && (a + b)[i] in owned;
        if i < |a| {
          assert a[i] in owned;
        } else {
          assert b[i - |a|] in owned;
        }
      }
      if service.HasAnyScopes(user, a).granted {
        var i :| 0 <= i < |a| && a[i] in owned;
        assert (a + b)[i] in owned;
      }
      if service.HasAnyScopes(user, b).granted {
        var i :| 0 <= i < |b| && b[i] in owned;
        assert (a + b)[|a| + i] in owned;
      }
    }
  }

  /** An empty request, or a user without scopes, is never granted. */
  lemma NoScopesNoGrant(service: Service, user: Option<LoginUser>, scopes: seq<string>)
    requires scopes == [] || (user.Some? && user.value.scopes == [])
    ensures !service.HasAnyScopes(user, scopes).granted
  {
  }
}
