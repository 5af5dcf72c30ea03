# Arcade staff server, modelled in Dafny

This project models the core of the arcade staff server: the back end that event
staff use at the gate, at the game stalls, at the prize desk and for their own
attendance. It covers five areas.

- **Wallet ledger** (`staff_arcade_model.dfy`). `staffTxnApply` credits or debits
  the token or ticket balance of a wallet. It is idempotent on
  (event, action id), enforces the gate check-in and a zero balance floor, and
  appends a transaction row. Gate approval and rejection of a registration each
  append an audit row. The team roster of a looked-up wallet lives here too.
- **Staff attendance** (`staff_checkin_model.dfy`). It covers check-in days
  upserted on (event, date), day activation, and scans upserted on
  (event, day, registration number). It also covers the normalisation of
  registration numbers and the finders behind "my check-ins".
- **Access resolution** (`staff_access_model.dfy`). Default flags come from the
  role. A grant row, when one exists, replaces those defaults wholesale.
- **Middleware** (`staff_access_guard.dfy`, `roles.js` in `roles.dfy`). These are
  `requireAccess`, which passes only a flag that is strictly `true`, and
  `requireRole`.
- **Route guard chains** (`staff_arcade_routes.dfy`). This covers the attendance
  scan, the wallet lookup, the four transaction routes and the gate approve and
  reject routes.

The database tables become fields of two classes. `ArcadeStore` holds wallets,
registrations, members, transactions and audit rows. `CheckinStore` holds days,
scans and members. The operations that update rows in place are methods on these
classes. Each transaction or gate method is proved equal to a specification
function on a `Ledger` value (`Apply`, `Approve`, `Reject`); the contract of
`Apply` is the lemma `ApplyContract`. The lemmas that
relate several steps are stated about those functions: replay, unique action
ids, non-negative balances, and balances that match the net of the log.

A few pieces of the environment become parameters:

- A generated primary key is a `freshId` parameter. The check-in store requires
  it to be unused; the transaction engine does not (see "## Left out").
- A `now()` reading is a `now: Time` parameter.
- The server's "today" is a `today` string.

Helper modules:

- `wrappers.dfy`: `Option`/`Result`, the `x || null` and `NULLIF(x, '')` mappings.
- `js.dfy`: JavaScript values, truthiness, optional-chaining reads.
- `text.dfy`: `String.prototype.trim` over the ECMAScript whitespace set, and
  `toUpperCase`.
- `tables.dfy`: the key and time types, first-match lookup in a table and
  uniqueness of a key.

## Model

| member | source | states |
|---|---|---|
| StaffArcadeModel.Signed | arcade-staff-server/src/models/staffArcadeModel.js:3-8 | CREDIT gives +\|a\|, DEBIT gives -\|a\|, any other type is the error "type must be CREDIT or DEBIT" |
| StaffArcadeModel.Validate | arcade-staff-server/src/models/staffArcadeModel.js:263-269 | succeeds iff type, amount > 0, currency, non-empty action id and non-blank reason are all valid; the first failing check, in that order, names the error; the delta is +amount for CREDIT and -amount for DEBIT |
| StaffArcadeModel.FindTxn | arcade-staff-server/src/models/staffArcadeModel.js:276-280 | returns a logged transaction with this event and action id, and none exactly when no such row exists |
| StaffArcadeModel.FullReason | arcade-staff-server/src/models/staffArcadeModel.js:320 | the stored reason is the trimmed reason, followed by " — " and the trimmed note when a non-empty note is given |
| StaffArcadeModel.SetBal | arcade-staff-server/src/models/staffArcadeModel.js:303-318 | only the balance that the currency selects (tickets for TICKETS, tokens otherwise) is set, and every other wallet field except the update time is kept |
| StaffArcadeModel.ApplyContract | arcade-staff-server/src/models/staffArcadeModel.js:263-353 | validation errors come first, even for a replay; a replay returns the recorded row and changes nothing; then come wallet-not-found, not-checked-in with the status or "unknown", and insufficient balance, each leaving the ledger unchanged; success occurs iff the wallet checks admit, sets one balance to current + delta (never negative) and appends exactly one row with amount \|amount\|, balance_after, the request's type, currency and action id, the full reason, the fresh id, actor type STAFF, the staff id and username (empty as null), and the game and preset ids (empty as null) |
| StaffArcadeModel.Approve | arcade-staff-server/src/models/staffArcadeModel.js:117-153 | returns a row iff the registration exists in the event; it becomes CHECKED_IN with time and username (null when empty), every other field is kept, and exactly one CHECKIN_APPROVE audit row is appended; otherwise nothing changes |
| StaffArcadeModel.Reject | arcade-staff-server/src/models/staffArcadeModel.js:155-197 | returns a row iff the registration exists in the event; it becomes REJECTED, an empty or missing reason is stored as null, rejected_at/by are stamped, other fields are kept, and exactly one CHECKIN_REJECT audit row is appended; otherwise nothing changes |
| StaffArcadeModel.ReplayReturnsOriginal | arcade-staff-server/src/models/staffArcadeModel.js:276-283 | after a success, any valid request with the same event and action id, whatever its wallet, type or amount, returns the same row and leaves the ledger as it is: applying twice equals applying once |
| StaffArcadeModel.ApplyKeepsActionIdsUnique | arcade-staff-server/src/models/staffArcadeModel.js:276-283 | (event, action id) stays unique across the transaction log |
| StaffArcadeModel.ApplyKeepsBalancesNonNegative | arcade-staff-server/src/models/staffArcadeModel.js:303-306 | a ledger with no negative token or ticket balance never gets one |
| StaffArcadeModel.LedgerSumAppend | arcade-staff-server/src/models/staffArcadeModel.js:322-350 | appending a row adds exactly its signed amount to the net of its wallet and currency |
| StaffArcadeModel.ApplyKeepsLedgerInStep | arcade-staff-server/src/models/staffArcadeModel.js:303-350 | for every wallet and currency, balance minus the net of the logged rows is unchanged: a balance moves exactly by what is logged |
| StaffArcadeModel.ApplyKeepsBalanced | arcade-staff-server/src/models/staffArcadeModel.js:303-350 | balances that equal the net of the log stay so |
| StaffArcadeModel.RejectedRegistrationCannotSpend | arcade-staff-server/src/models/staffArcadeModel.js:294-301 | after a rejection, a fresh check-in-enforcing transaction on any wallet of that registration fails with status REJECTED and changes nothing |
| StaffArcadeModel.ApprovedRegistrationCanSpend | arcade-staff-server/src/models/staffArcadeModel.js:294-306 | after an approval, a fresh valid transaction on a wallet of that registration can fail only for an insufficient balance |
| StaffArcadeModel.GetTeamMembers | arcade-staff-server/src/models/staffArcadeModel.js:52-87 | lists exactly the registration's members in the event, each with its own id, name and reg no and not primary, leaving out the excluded member when one is given |
| StaffArcadeModel.GetPrimaryRegistrant | arcade-staff-server/src/models/staffArcadeModel.js:90-114 | returns a row iff the registration exists in the event; that row is primary, has no member id, and carries the registration's name and reg no |
| StaffArcadeModel.ArcadeStore.StaffTxnApply | arcade-staff-server/src/models/staffArcadeModel.js:248-360 | the result and the new tables are those of `Apply` on the old tables |
| StaffArcadeModel.ArcadeStore.CheckinApprove | arcade-staff-server/src/models/staffArcadeModel.js:117-153 | the result and the new tables are those of `Approve` on the old tables |
| StaffArcadeModel.ArcadeStore.CheckinReject | arcade-staff-server/src/models/staffArcadeModel.js:155-197 | the result and the new tables are those of `Reject` on the old tables |
| StaffCheckinModel.NormalizeRegNo | arcade-staff-server/src/models/staffCheckinModel.js:3-5 | the result is the trimmed value upper-cased character by character: as long as the trimmed value, trimmed, with no lower-case letter, and "" iff the value is missing or blank |
| Text.TrimKeepsSlice | arcade-staff-server/src/models/staffCheckinModel.js:4 | `trim` keeps one contiguous slice of the text and drops only whitespace before and after it |
| StaffCheckinModel.NormalizeIdempotent | arcade-staff-server/src/models/staffCheckinModel.js:3-5 | normalising a normalised registration number changes nothing |
| StaffCheckinModel.ValidateDate | arcade-staff-server/src/models/staffCheckinModel.js:22-25 | succeeds iff the trimmed text matches the date pattern, and then yields that trimmed text; otherwise it is the date error |
| StaffCheckinModel.FindDayById | arcade-staff-server/src/models/staffCheckinModel.js:58-69 | returns a day of the event with this id, active or not, and none iff there is no such day |
| StaffCheckinModel.FindActiveDayByDate | arcade-staff-server/src/models/staffCheckinModel.js:71-82 | returns only an active day of the event on this date, and none iff there is no such day |
| StaffCheckinModel.FindMemberByRegNo | arcade-staff-server/src/models/staffCheckinModel.js:105-120 | none for a blank registration number; otherwise only an active member of the event with the normalised number, and none iff there is no such member |
| StaffCheckinModel.JoinedScans | arcade-staff-server/src/models/staffCheckinModel.js:126-147 | every row is a scan of this event and registration number joined with its day, and every such scan whose day exists appears |
| StaffCheckinModel.MyCheckins | arcade-staff-server/src/models/staffCheckinModel.js:122-150 | [] for a blank registration number; otherwise at most `limit` rows, all of them that number's scans joined with their days, taken as a prefix of the full join |
| StaffCheckinModel.CheckinStore.CreateCheckinDay | arcade-staff-server/src/models/staffCheckinModel.js:21-43 | a date text that, once trimmed, is not 4-2-2 digits is the date error with no change; otherwise the result is the (event, date) upsert of that trimmed date with the trimmed title and note, and keys stay unique |
| StaffCheckinModel.CheckinStore.UpsertDay | arcade-staff-server/src/models/staffCheckinModel.js:27-42 | the result is active, dated and stamped now; an existing (event, date) day is replaced in place, keeping its id, creator, creation time, and its title/note where the new ones are blank; a missing one is appended with the fresh id, the creator or null, and blank title/note as null; the id and (event, date) keys stay unique |
| StaffCheckinModel.ReactivateIsUpsert | arcade-staff-server/src/models/staffCheckinModel.js:33-37 | the conflict branch (COALESCE of the new title and note over the old ones, active, restamped) is that upsert and keeps both keys unique |
| StaffCheckinModel.InsertIsUpsert | arcade-staff-server/src/models/staffCheckinModel.js:28-30 | the insert branch (NULLIF of the title and note, active, creator or null) is that upsert and keeps both keys unique |
| StaffCheckinModel.CheckinStore.SetCheckinDayActive | arcade-staff-server/src/models/staffCheckinModel.js:45-56 | only the (event, id) day's flag, coerced by truthiness, and its update time change; null and no change when there is no such day |
| StaffCheckinModel.CheckinStore.ScanStaffCheckin | arcade-staff-server/src/models/staffCheckinModel.js:84-103 | a blank registration number is "reg_no required" with no change; otherwise an existing (event, day, number) scan is restamped with time and actor in place, keeping id, source and creation time, and a missing one is appended with source APP_SCAN; no duplicate arises |
| StaffAccessModel.DefaultsFromRole | arcade-staff-server/src/models/staffAccessModel.js:3-48 | STAFF gives only staff check-in, GATE only gate, GAME game and prize, PRIZE only prize, and anything else nothing; no role grants day management |
| StaffAccessModel.DefaultsIgnoreCase | arcade-staff-server/src/models/staffAccessModel.js:4 | the defaults depend on the role only through its upper-cased text |
| StaffAccessModel.UnknownRoleGrantsNothing | arcade-staff-server/src/models/staffAccessModel.js:41-47 | a role that is not STAFF, GATE, GAME or PRIZE in any case gets all five flags false |
| StaffAccessModel.FindGrant | arcade-staff-server/src/models/staffAccessModel.js:59-75 | returns a grant row of this event and staff id, and none iff there is no such row |
| StaffAccessModel.ResolveStaffAccess | arcade-staff-server/src/models/staffAccessModel.js:50-91 | with no staff id or no grant row, the role defaults with a null reg no; otherwise the row's five flags verbatim, and its reg no with "" as null |
| StaffAccessModel.GrantOverridesRole | arcade-staff-server/src/models/staffAccessModel.js:83-90 | when a grant row exists, the resolved flags do not depend on the role |
| StaffAccessModel.OnlyGrantsManageDays | arcade-staff-server/src/models/staffAccessModel.js:50-91 | a resolved day-management flag of true implies a grant row for this event and staff id with that flag true |
| StaffAccessGuard.RequireAccess | arcade-staff-server/src/middleware/staffAccess.js:1-7 | next() iff the session's access object holds exactly `true` under the key; otherwise 403 "Forbidden" |
| StaffAccessGuard.OnlyTheKeyMatters | arcade-staff-server/src/middleware/staffAccess.js:3-5 | sessions that agree on the key's value get the same outcome, whatever their other flags |
| StaffAccessGuard.TruthyIsNotEnough | arcade-staff-server/src/middleware/staffAccess.js:4-5 | a truthy flag value that is not the boolean true, such as 1 or "true", is refused with 403 |
| Roles.RequireRole | arcade-staff-server/src/middleware/roles.js:2-16 | a missing or falsy role gets 401; STAFF always passes; any other role passes iff it is exactly one of the allowed strings, else 403 |
| Roles.EmptyListOnlyStaff | arcade-staff-server/src/middleware/roles.js:9-12 | with no allowed roles, a request passes iff its role is STAFF |
| Roles.MoreRolesAdmitMore | arcade-staff-server/src/middleware/roles.js:12 | adding allowed roles never turns a pass into a refusal |
| StaffArcadeRoutes.ResolveDay | arcade-staff-server/src/routes/staffArcadeRoutes.js:57-66 | a given day id finds that day whether active or not; otherwise the active day of the body's date, or of today's date when none is given |
| StaffArcadeRoutes.ScanGuardContract | arcade-staff-server/src/routes/staffArcadeRoutes.js:48-69 | a blank number, an unknown member, no resolved day and an inactive day each give their error, in that order; the guard passes iff the member exists and the resolved day is active, and then yields that member and that day |
| StaffArcadeRoutes.ScanRoute | arcade-staff-server/src/routes/staffArcadeRoutes.js:47-80 | a refused guard is a 400 with its error and the scan table unchanged; otherwise the reply carries the guard's member and day and the scan stored by the (event, day, normalised number) upsert on that day |
| StaffArcadeModel.WalletLookupByCode | arcade-staff-server/src/models/staffArcadeModel.js:11-49 | some wallet of the event with this code whose registration exists, and none iff there is no such wallet |
| StaffArcadeRoutes.TeamRoster | arcade-staff-server/src/routes/staffArcadeRoutes.js:112-123 | the scanned member never appears; a member wallet's roster starts with the registration holder's name and reg no as the primary row when the registration exists, followed by the other members; a holder wallet's roster is the members with no primary row |
| StaffArcadeRoutes.LookupTeam | arcade-staff-server/src/routes/staffArcadeRoutes.js:113-123 | the roster built by reassigning the list equals `TeamRoster` |
| StaffArcadeRoutes.WalletLookupRoute | arcade-staff-server/src/routes/staffArcadeRoutes.js:103-126 | a blank code gives 400 "code required"; an unknown code gives no item; a known one gives the looked-up wallet with its roster |
| StaffArcadeRoutes.DefaultReason | arcade-staff-server/src/routes/staffArcadeRoutes.js:179 | each route's default reason is a non-empty trimmed text |
| StaffArcadeRoutes.TxnRequestFor | arcade-staff-server/src/routes/staffArcadeRoutes.js:173-285 | debit is DEBIT TOKENS with default PLAY; reward and credit are CREDIT TICKETS with default REWARD; prize-redeem is DEBIT TICKETS with default PRIZE_REDEMPTION and no game or preset; debit, reward and credit pass the body's game id (empty as null), reward and credit its preset id; all carry the session's staff id and username, enforce check-in and trim the wallet id, action id, reason and note |
| StaffArcadeRoutes.CreditIsRewardAlias | arcade-staff-server/src/routes/staffArcadeRoutes.js:257-285 | /txns/credit builds the same request as /txns/reward |
| StaffArcadeRoutes.RouteDirection | arcade-staff-server/src/routes/staffArcadeRoutes.js:173-255 | a fresh success of debit or prize-redeem records a balance_after below the wallet's prior balance of that currency, and of reward or credit one above it |
| StaffArcadeRoutes.TxnHandler | arcade-staff-server/src/routes/staffArcadeRoutes.js:173-199 | the result and the new tables are those of `Apply` on the route's request |
| StaffArcadeRoutes.ApproveRoute | arcade-staff-server/src/routes/staffArcadeRoutes.js:129-141 | a blank reg_id gives 400 with no change; otherwise the reply and the new tables are those of `Approve` on the trimmed id |
| StaffArcadeRoutes.RejectRoute | arcade-staff-server/src/routes/staffArcadeRoutes.js:143-158 | a blank reg_id gives 400 with no change; otherwise `Reject` on the trimmed id with the trimmed reason, a missing reason passed as "" |
| StaffArcadeRoutes.GuardFollowsResolvedFlags | arcade-staff-server/src/middleware/staffAccess.js:3-4 | each of the five guards admits a session iff its resolved flag is true; a NULL grant column refuses like false |
| StaffArcadeRoutes.ManagingDaysNeedsAGrant | arcade-staff-server/src/routes/staffArcadeRoutes.js:25-45 | passing the day-management guard requires a staff id and a grant row for it with that flag true |

## Left out

- Amounts are integers. JavaScript's floating-point `Number`, `Math.abs` and
  `Number.isFinite` are not modelled, so NaN, infinities and fractional amounts do
  not arise. `Number(b.amount)` in the transaction routes is taken as already
  converted.
- Every call is modelled sequentially, as one atomic step. The PostgreSQL
  connection, `BEGIN`/`COMMIT`/`ROLLBACK` and the `FOR UPDATE` row lock are not
  modelled. So neither concurrent requests nor a failing insert are modelled.
- Generated uuids and `now()` readings are parameters. The scan route's server date
  is the `today` parameter, so its time-zone arithmetic is not modelled.
- Dates are compared as text. PostgreSQL's `::date` casting is not modelled: calendar
  validity, other spellings of the same date, and the database error on an
  unparsable `checkin_date` in a scan.
- Text.ToUpper: upper-cases ASCII letters only, not the rest of Unicode.
- Authentication is not part of this model: JWT signing and checking, bcrypt
  password checks and the login route. The session reaches the handlers as
  `Session` or `JsValue` values.
- StaffArcadeModel.WalletLookupByCode: picks any matching wallet, because
  `LIMIT 1` without an order fixes none. The returned row is reduced to the wallet
  id, registration id and member id that the roster uses.
- `walletRecentTxns`, `gamesActiveList`, `presetsActiveByGame`, `checkinDaysList` and
  `dayCheckinsList`, with their routes, are not modelled. They are read-only
  listings.
- StaffCheckinModel.MyCheckins: returns rows in table order. It does not apply
  `ORDER BY checkin_date DESC, checked_in_at DESC`, and leaves out the joined
  member name.
- StaffArcadeModel.GetTeamMembers: lists each member once. The source's
  `LEFT JOIN arcade_wallets` repeats a member who has several wallets in the
  event; the model has no wallet columns in the roster, so it has no such rows.
- StaffArcadeModel.GetTeamMembers: returns rows in table order rather than
  `ORDER BY position`. It keeps only member id, name and registration number,
  leaving out wallet, contact and check-in columns.
- The `meta` JSON of audit rows and the `console.log` in `checkinReject` are not
  modelled.
- Only the transaction log's (event, action id) uniqueness is tracked. The
  uniqueness of transaction row ids is not tracked.
- The `404 Day not found` answers of the day activation and day listing routes are
  not modelled. `/me` and `/staff-checkin/my` are not modelled either.
- Ids are opaque strings. PostgreSQL casts `reg_id`, `wallet_id`, `day_id` and
  `excludeMemberId` to `uuid`, and a malformed id raises an error that the app
  answers with 500. The model treats a malformed id as an absent row: the gate
  routes answer with a null item, the transaction engine with "wallet not found",
  and the scan with "No active Staff Checkin day found".
- Default arguments are not modelled. `staffTxnApply` defaults `currency` to
  TOKENS and `enforceCheckedIn` to true, and `myCheckins` defaults `limit` to 120.
  The model's callers pass these values explicitly, as every route does.
- Request bodies hold strings or nothing. A non-string `reg_no`, `reason` or
  `day_id` (a number or an object passed through `String(...)`) is not modelled.
- StaffArcadeRoutes.ScanRoute: the "reg_no required" error of `scanStaffCheckin` is
  never reached from the route. The route has already rejected a blank number, and
  the model proves the error unreachable.
