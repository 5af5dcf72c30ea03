/** Resolution of a staff member's capability flags: role defaults, or an explicit
    grant row that replaces them wholesale. */
module StaffAccessModel {
  import opened Wrappers
  import opened Text
  import opened Tables

  /** The five capability flags. A grant row's columns may be NULL (None); the role
      defaults are always definite. */
  datatype Flags = Flags(
    canGate: Option<bool>,
    canGame: Option<bool>,
    canPrize: Option<bool>,
    canStaffCheckin: Option<bool>,
    canManageCheckinDays: Option<bool>)

  /** The access record attached to a staff session. */
  datatype Access = Access(flags: Flags, staffRegNo: Option<string>)

  /** A row of the per-event grant table, keyed by (event, staff id). */
  datatype GrantRow = GrantRow(eventKey: string, staffId: string, staffRegNo: Option<string>, flags: Flags)

  /** `String(role || "").toUpperCase()`. */
  function RoleKey(role: Option<string>): string {
    ToUpper(role.GetOr(""))
  }

  function AllFlags(b: bool): Flags {
    Flags(Some(b), Some(b), Some(b), Some(b), Some(b))
  }

  /** The capability defaults of a role: STAFF may scan attendance, GATE may check
      attendees in, GAME may run games and hand out prizes, PRIZE may hand out prizes;
      nothing else grants anything, and no role may manage check-in days. */
  function DefaultsFromRole(role: Option<string>): (f: Flags)
    ensures f.canStaffCheckin == Some(RoleKey(role) == "STAFF")
    ensures f.canGate == Some(RoleKey(role) == "GATE")
    ensures f.canGame == Some(RoleKey(role) == "GAME")
    ensures f.canPrize == Some(RoleKey(role) == "GAME" || RoleKey(role) == "PRIZE")
    ensures f.canManageCheckinDays == Some(false)
  {
    var r := RoleKey(role);
    if r == "STAFF" then AllFlags(false).(canStaffCheckin := Some(true))
    else if r == "GATE" then AllFlags(false).(canGate := Some(true))
    else if r == "GAME" then AllFlags(false).(canGame := Some(true), canPrize := Some(true))
    else if r == "PRIZE" then AllFlags(false).(canPrize := Some(true))
    else AllFlags(false)
  }

  /** The role is matched case-insensitively: a role and its upper-cased spelling
      have the same defaults. */
  lemma DefaultsIgnoreCase(role: string)
    ensures DefaultsFromRole(Some(role)) == DefaultsFromRole(Some(ToUpper(role)))
  {
    ToUpperIdempotent(role);
  }

  /** A role outside STAFF, GATE, GAME and PRIZE (including a missing one) grants
      nothing. */
  lemma UnknownRoleGrantsNothing(role: Option<string>)
    requires RoleKey(role) !in {"STAFF", "GATE", "GAME", "PRIZE"}
    ensures DefaultsFromRole(role) == AllFlags(false)
  {
  }

  function GrantKey(g: GrantRow): (string, string) { (g.eventKey, g.staffId) }

  /** The grant row for (event, staff id), as `LIMIT 1` returns it. */
  function FindGrant(rows: seq<GrantRow>, eventKey: string, staffId: string): (r: Option<GrantRow>)
    ensures r.Some? ==> r.value in rows && r.value.eventKey == eventKey && r.value.staffId == staffId
    ensures r.None? <==> forall g :: g in rows ==> !(g.eventKey == eventKey && g.staffId == staffId)
  {
    Lookup(rows, GrantKey, (eventKey, staffId))
  }

  /** The access record of a staff member: with no staff id or no grant row, the
      role defaults and no registration number; otherwise the grant row's flags
      verbatim (never merged with the defaults) and its registration number, an
      empty one read as null. */
  function ResolveStaffAccess(rows: seq<GrantRow>, eventKey: string, staffId: Option<string>, role: Option<string>): (a: Access)
    ensures !Present(staffId) ==> a == Access(DefaultsFromRole(role), None)
    ensures Present(staffId) ==>
      match FindGrant(rows, eventKey, staffId.value)
      case None => a == Access(DefaultsFromRole(role), None)
      case Some(g) => a.flags == g.flags && a.staffRegNo == OrNull(g.staffRegNo)
  {
    var fallback := DefaultsFromRole(role);
    if !Present(staffId) then Access(fallback, None)
    else
      match FindGrant(rows, eventKey, staffId.value)
      case None => Access(fallback, None)
      case Some(row) => Access(row.flags, OrNull(row.staffRegNo))
  }

  /** Once a grant row exists, the role no longer matters. */
  lemma GrantOverridesRole(rows: seq<GrantRow>, eventKey: string, staffId: string, role1: Option<string>, role2: Option<string>)
    requires staffId != "" && FindGrant(rows, eventKey, staffId).Some?
    ensures ResolveStaffAccess(rows, eventKey, Some(staffId), role1) == ResolveStaffAccess(rows, eventKey, Some(staffId), role2)
  {
  }

  /** Without a grant row nobody may manage check-in days. */
  lemma {:induction false} OnlyGrantsManageDays(rows: seq<GrantRow>, eventKey: string, staffId: Option<string>, role: Option<string>)
    requires ResolveStaffAccess(rows, eventKey, staffId, role).flags.canManageCheckinDays == Some(true)
    ensures staffId.Some?
    ensures exists g :: (g in rows && g.eventKey == eventKey && g.staffId == staffId.value
                         && g.flags.canManageCheckinDays == Some(true))
  {
    var g := FindGrant(rows, eventKey, staffId.value);
    assert g.value in rows;
  }
}
