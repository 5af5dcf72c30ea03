/** The `requireRole(...roles)` middleware. */
module Roles {
  import opened Js
  import opened StaffAccessGuard

  /** No role is 401; the role "STAFF" always passes; any other role passes exactly
      when it is one of `allowed` (compared case-sensitively), else 403. */
  function RequireRole(allowed: seq<string>, staff: JsValue): (o: Outcome)
    ensures !Truthy(Get(staff, "role")) ==> o == Respond(401, "Unauthorized")
    ensures Get(staff, "role") == Str("STAFF") ==> o == Next
    ensures Truthy(Get(staff, "role")) && Get(staff, "role") != Str("STAFF") ==>
      (o == Next <==> exists s :: s in allowed && Get(staff, "role") == Str(s))
    ensures o == Next || o == Respond(401, "Unauthorized") || o == Respond(403, "Forbidden")
  {
    var role := Get(staff, "role");
    if !Truthy(role) then Respond(401, "Unauthorized")
    else if role == Str("STAFF") then Next
    else if !(role.Str? && role.s in allowed) then Respond(403, "Forbidden")
    else Next
  }

  /** With an empty list only STAFF gets through. */
  lemma EmptyListOnlyStaff(staff: JsValue)
    ensures RequireRole([], staff) == Next <==> Get(staff, "role") == Str("STAFF")
  {
  }

  /** Allowing more roles never turns a pass into a refusal. */
  lemma MoreRolesAdmitMore(allowed: seq<string>, wider: seq<string>, staff: JsValue)
    requires forall s :: s in allowed ==> s in wider
    requires RequireRole(allowed, staff) == Next
    ensures RequireRole(wider, staff) == Next
  {
  }
}
