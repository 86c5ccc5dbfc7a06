/** The permission guard: a route that declares required permissions admits a user
    who holds at least one of them, directly or through one of their roles. */
module PermissionGuard {
  import opened Common

  /** A role; its permissions are given by name. */
  datatype Role = Role(name: string, permissions: Option<seq<string>>)

  /** The authenticated user on the request; either list may be absent. */
  datatype User = User(permissions: Option<seq<string>>, roles: Option<seq<Role>>)

  /** The guard reads `user.permissions` with a plain property access, which throws when
      no user is attached to the request. */
  const UserMissing := "TypeError: user is undefined"

  /** `list?.includes(p)`: an absent list includes nothing. */
  predicate Includes(list: Option<seq<string>>, p: string)
  {
    list.Some? && p in list.value
  }

  /** `roles.some(role => role.permissions?.includes(p))`. */
  predicate SomeRoleIncludes(roles: seq<Role>, p: string)
  {
    roles != [] && (Includes(roles[0].permissions, p) || SomeRoleIncludes(roles[1..], p))
  }

  /** The callback of the guard's `some`: `p` is the user's own or one of a role's. */
  predicate Holds(u: User, p: string)
  {
    Includes(u.permissions, p) || (u.roles.Some? && SomeRoleIncludes(u.roles.value, p))
  }

  /** `required.some(p => Holds(user, p))`. */
  predicate SomeHeld(required: seq<string>, u: User)
  {
    required != [] && (Holds(u, required[0]) || SomeHeld(required[1..], u))
  }

  /** `canActivate`: no required-permissions metadata admits everyone; otherwise the user
      is admitted iff they hold one of the required permissions.  `some` on an empty
      list never runs its callback, so an empty list denies without reading the user;
      reading the permissions of a missing user throws. */
  function CanActivate(required: Option<seq<string>>, user: Option<User>): (r: Result<bool, string>)
    ensures required.None? ==> r == Ok(true)
    ensures required == Some([]) ==> r == Ok(false)
    ensures r.Err? <==> required.Some? && required.value != [] && user.None?
  {
    match required
    case None => Ok(true)
    case Some(ps) =>
      if ps == [] then Ok(false)
      else if user.None? then Err(UserMissing)
      else Ok(SomeHeld(ps, user.value))
  }

  // ---------------------------------------------------------------------------------
  // The guard's decision in terms of membership

  /** Permission `p` is among the user's own permissions or in one of their roles. */
  ghost predicate Granted(u: User, p: string)
  {
    Includes(u.permissions, p) ||
    (u.roles.Some? && exists r :: r in u.roles.value && Includes(r.permissions, p))
  }

  lemma {:induction false} SomeRoleIncludesIff(roles: seq<Role>, p: string)
    ensures SomeRoleIncludes(roles, p) <==> exists r :: r in roles && Includes(r.permissions, p)
  {
    if roles != [] {
      SomeRoleIncludesIff(roles[1..], p);
      assert roles == [roles[0]] + roles[1..];
    }
  }

  lemma {:induction false} SomeHeldIff(required: seq<string>, u: User)
    ensures SomeHeld(required, u) <==> exists p :: p in required && Holds(u, p)
  {
    if required != [] {
      SomeHeldIff(required[1..], u);
      assert required == [required[0]] + required[1..];
    }
  }

  /** With metadata and a user, access is granted iff some required permission is the
      user's own or belongs to one of the user's roles. */
  lemma CanActivateIff(required: seq<string>, u: User)
    ensures CanActivate(Some(required), Some(u)) == Ok(true) <==>
      exists p :: p in required && Granted(u, p)
  {
    SomeHeldIff(required, u);
    if u.roles.Some? {
      forall p {
        SomeRoleIncludesIff(u.roles.value, p);
      }
    }
  }

  // ---------------------------------------------------------------------------------
  // Monotonicity

  /** `v` has every permission and every role `u` has. */
  predicate Extends(u: User, v: User)
  {
    (u.permissions.Some? ==>
       (v.permissions.Some? && forall p :: p in u.permissions.value ==> p in v.permissions.value)) &&
    (u.roles.Some? ==>
       (v.roles.Some? && forall r :: r in u.roles.value ==> r in v.roles.value))
  }

  /** Giving a user more permissions or roles never turns an admission into a denial. */
  lemma CanActivateMonotone(required: Option<seq<string>>, u: User, v: User)
    requires Extends(u, v)
    requires CanActivate(required, Some(u)) == Ok(true)
    ensures CanActivate(required, Some(v)) == Ok(true)
  {
    if required.Some? {
      CanActivateIff(required.value, u);
      CanActivateIff(required.value, v);
      var p :| p in required.value && Granted(u, p);
      assert Granted(v, p);
    }
  }
}
