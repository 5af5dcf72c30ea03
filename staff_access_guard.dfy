/** The `requireAccess(permissionKey)` middleware. */
module StaffAccessGuard {
  import opened Js

  /** What a middleware does with a request: pass it on, or answer it. */
  datatype Outcome = Next | Respond(status: int, error: string)

  /** Lets the request through exactly when `req.staff.access[key]` is the boolean
      `true`; anything else (missing session, missing access object, a false, null,
      or merely truthy value) is answered 403. */
  function RequireAccess(staff: JsValue, key: string): (o: Outcome)
    ensures o == Next <==> Get(Get(staff, "access"), key) == Bool(true)
    ensures o != Next ==> o == Respond(403, "Forbidden")
  {
    var access := if Truthy(Get(staff, "access")) then Get(staff, "access") else Obj(map[]);
    if Get(access, key) == Bool(true) then Next else Respond(403, "Forbidden")
  }

  /** Only flag `key` is consulted: two sessions that agree on it get the same answer. */
  lemma OnlyTheKeyMatters(staff1: JsValue, staff2: JsValue, key: string)
    requires Get(Get(staff1, "access"), key) == Get(Get(staff2, "access"), key)
    ensures RequireAccess(staff1, key) == RequireAccess(staff2, key)
  {
  }

  /** Truthy values that are not the boolean `true` are refused. */
  lemma TruthyIsNotEnough(access: map<string, JsValue>, key: string, v: JsValue)
    requires Truthy(v) && v != Bool(true)
    ensures RequireAccess(Obj(map["access" := Obj(access[key := v])]), key) == Respond(403, "Forbidden")
  {
  }
}
