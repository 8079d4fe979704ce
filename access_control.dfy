/** src/utils/access_control.ts: who may edit or delete a resource. */
module AccessControl {
  import opened Types

  /** Array.prototype.includes, which compares strings by value */
  function Includes(xs: seq<JsValue>, x: JsValue): (r: bool)
    ensures r <==> exists k :: 0 <= k < |xs| && xs[k] == x
  {
    if xs == [] then false
    else if xs[0] == x then true
    else
      assert forall k :: 1 <= k < |xs| ==> xs[k] == xs[1..][k - 1];
      Includes(xs[1..], x)
  }

  /** The roles claim is an array that holds the string "admin" */
  predicate IsAdmin(roles: JsValue) {
    roles.Array? && Includes(roles.elements, Str("admin"))
  }

  /** canEditOrDelete(user, resource): admins may change anything, other
      users only a resource whose non-empty userId is their own `sub` */
  predicate CanEditOrDelete(user: User, resourceUserId: string) {
    if IsAdmin(user.roles) then true
    else |resourceUserId| > 0 && resourceUserId == user.sub
  }

  /** "admin" anywhere in a roles array grants access, whoever owns the resource */
  lemma AdminAtAnyPosition(user: User, resourceUserId: string, k: nat)
    requires user.roles.Array? && k < |user.roles.elements|
    requires user.roles.elements[k] == Str("admin")
    ensures CanEditOrDelete(user, resourceUserId)
  {
  }

  /** A roles claim that is not an array (null, a number, the string
      "admin", an object, ...) never makes a user an admin; a roles array
      that lacks the exact element "admin" (an empty one, or one holding
      ["admin"] nested) does not either. Access then depends on ownership
      alone. */
  lemma NonAdminNeedsOwnership(user: User, resourceUserId: string)
    requires !user.roles.Array? || forall k :: 0 <= k < |user.roles.elements| ==> user.roles.elements[k] != Str("admin")
    ensures CanEditOrDelete(user, resourceUserId) <==> resourceUserId != "" && resourceUserId == user.sub
  {
  }

  /** The decision in one statement: admin, or owner with a non-empty id */
  lemma CanEditOrDeleteIff(user: User, resourceUserId: string)
    ensures CanEditOrDelete(user, resourceUserId) <==>
      (user.roles.Array? && Str("admin") in user.roles.elements) ||
      (resourceUserId != "" && resourceUserId == user.sub)
  {
  }

  /** An empty userId grants nothing to a non-admin, even one whose sub is empty */
  lemma EmptyUserIdDenies(user: User)
    requires !IsAdmin(user.roles)
    ensures !CanEditOrDelete(user, "")
  {
  }
}
