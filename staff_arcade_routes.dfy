/** The staff request handlers: the guard chains in front of the model operations. */
module StaffArcadeRoutes {
  import opened Wrappers
  import opened Text
  import opened Js
  import opened StaffAccessGuard
  import opened StaffAccessModel
  import opened StaffCheckinModel
  import opened StaffArcadeModel
  import opened Tables

  /** The authenticated staff session fields the handlers pass on. */
  datatype Session = Session(staffId: Option<string>, username: Option<string>)

  // ---------------------------------------------------------------------------
  // Attendance scan

  /** The body of a scan request. */
  datatype ScanBody = ScanBody(regNo: Option<string>, dayId: Option<string>, checkinDate: Option<string>)

  datatype ScanReply =
    | ScanBadRequest(error: string)
    | Scanned(item: StaffCheckin, day: Day, member: StaffMember)


  /** The date a scan without a day id is filed under: the one in the body, else
      today's. */
  function ScanDate(body: ScanBody, today: string): string {
    if Present(body.checkinDate) then body.checkinDate.value else today
  }

  /** The day a scan names: by id when the body gives one (active or not), else the
      active day of the scan date. */
  function ResolveDay(days: seq<Day>, eventKey: string, body: ScanBody, today: string): (r: Option<Day>)
    ensures r.Some? ==> r.value in days && r.value.eventKey == eventKey
    ensures Present(body.dayId) ==>
              (r.Some? ==> r.value.id == body.dayId.value)
              && (r.None? <==> forall d :: d in days ==> !(d.eventKey == eventKey && d.id == body.dayId.value))
    ensures !Present(body.dayId) ==>
              (r.Some? ==> r.value.checkinDate == ScanDate(body, today) && r.value.isActive)
              && (r.None? <==> forall d :: d in days ==> !(d.eventKey == eventKey && d.checkinDate == ScanDate(body, today) && d.isActive))
  {
    if Present(body.dayId) then FindDayById(days, eventKey, body.dayId.value)
    else FindActiveDayByDate(days, eventKey, ScanDate(body, today))
  }

  /** The guard chain of the scan route: a blank registration number, an unknown
      member, a missing day and an inactive day are each refused, in that order;
      otherwise the member and the day to file the scan under. The member is looked
      up by the raw number, which `FindMemberByRegNo` normalises; by
      `NormalizeIdempotent` that is the lookup of the normalised number. */
  function ScanGuard(members: seq<StaffMember>, days: seq<Day>, eventKey: string, body: ScanBody, today: string)
    : (r: Result<(StaffMember, Day), string>)
  {
    var regNo := NormalizeRegNo(body.regNo);
    if regNo == "" then Failure("reg_no required")
    else
      match FindMemberByRegNo(members, eventKey, body.regNo)
      case None => Failure("Registration number not found in predefined member list")
      case Some(member) =>
        match ResolveDay(days, eventKey, body, today)
        case None => Failure("No active Staff Checkin day found")
        case Some(day) => if !day.isActive then Failure("Selected day is inactive") else Success((member, day))
  }

  /** The contract of `ScanGuard`, kept apart so that the route's own proof does
      not have to carry it. */
  lemma ScanGuardContract(members: seq<StaffMember>, days: seq<Day>, eventKey: string, body: ScanBody, today: string)
    ensures var r := ScanGuard(members, days, eventKey, body, today);
            NormalizeRegNo(body.regNo) == "" ==> r == Failure("reg_no required")
    ensures var r := ScanGuard(members, days, eventKey, body, today);
            NormalizeRegNo(body.regNo) != "" && FindMemberByRegNo(members, eventKey, body.regNo).None? ==>
              r == Failure("Registration number not found in predefined member list")
    ensures var r := ScanGuard(members, days, eventKey, body, today);
            FindMemberByRegNo(members, eventKey, body.regNo).Some? && ResolveDay(days, eventKey, body, today).None? ==>
              r == Failure("No active Staff Checkin day found")
    ensures var r := ScanGuard(members, days, eventKey, body, today);
            FindMemberByRegNo(members, eventKey, body.regNo).Some? && ResolveDay(days, eventKey, body, today).Some?
            && !ResolveDay(days, eventKey, body, today).value.isActive ==>
              r == Failure("Selected day is inactive")
    ensures var r := ScanGuard(members, days, eventKey, body, today);
            r.Success? <==>
              && FindMemberByRegNo(members, eventKey, body.regNo).Some?
              && ResolveDay(days, eventKey, body, today).Some? && ResolveDay(days, eventKey, body, today).value.isActive
    ensures var r := ScanGuard(members, days, eventKey, body, today);
            r.Success? ==>
              && Some(r.value.0) == FindMemberByRegNo(members, eventKey, body.regNo)
              && Some(r.value.1) == ResolveDay(days, eventKey, body, today)
  {
  }

  /** `POST /staff-checkin/scan`: a refused scan is answered 400 with the scan table
      untouched; otherwise the scan is upserted on the resolved day. */
  method ScanRoute(store: CheckinStore, eventKey: string, body: ScanBody, session: Session, today: string, freshId: Uuid, now: Time)
    returns (reply: ScanReply)
    requires store.Valid()
    requires forall c :: c in store.checkins ==> c.id != freshId
    modifies store`checkins
    ensures store.Valid()
    ensures var g := ScanGuard(store.members, store.days, eventKey, body, today);
            g.Failure? ==> reply == ScanBadRequest(g.error) && store.checkins == old(store.checkins)
    ensures var g := ScanGuard(store.members, store.days, eventKey, body, today);
            g.Success? ==>
              && reply.Scanned? && reply.member == g.value.0 && reply.day == g.value.1
              && ScanEffect(old(store.checkins), store.checkins, eventKey, g.value.1.id, NormalizeRegNo(body.regNo),
                            session.staffId, session.username, freshId, now, reply.item)
  {
    var g := ScanGuard(store.members, store.days, eventKey, body, today);
    if g.Failure? {
      return ScanBadRequest(g.error);
    }
    var (member, day) := g.value;
    var regNo := NormalizeRegNo(body.regNo);
    NormalizeIdempotent(body.regNo);
    var r := store.ScanStaffCheckin(eventKey, day.id, Some(regNo), session.staffId, session.username, freshId, now);
    assert r.Success?;
    reply := Scanned(r.value, day, member);
  }

  // ---------------------------------------------------------------------------
  // Wallet lookup

  datatype LookupReply =
    | LookupBadRequest(error: string)
    | NoWallet
    | Found(item: WalletItem, team: seq<TeamRow>)

  /** The team roster of a looked-up wallet: the registration's other members, led
      by the registration holder when the wallet is a member's. */
  function TeamRoster(l: Ledger, eventKey: string, item: WalletItem): (team: seq<TeamRow>)
    ensures Present(item.memberId) ==> forall row :: row in team ==> row.memberId != item.memberId
    ensures !Present(item.memberId) ==>
              team == GetTeamMembers(l.members, eventKey, item.regId, item.memberId)
              && forall row :: row in team ==> !row.isPrimary
    ensures Present(item.memberId) && HasRegistration(l, eventKey, item.regId) ==>
              var reg := l.registrations[item.regId];
              team != [] && team[0] == TeamRow(None, reg.name, reg.regNo, true)
              && team[1..] == GetTeamMembers(l.members, eventKey, item.regId, item.memberId)
    ensures Present(item.memberId) && !HasRegistration(l, eventKey, item.regId) ==>
              team == GetTeamMembers(l.members, eventKey, item.regId, item.memberId)
  {
    var members := GetTeamMembers(l.members, eventKey, item.regId, item.memberId);
    if Present(item.memberId) then
      match GetPrimaryRegistrant(l, eventKey, item.regId)
      case Some(primary) =>
        var team := [primary] + members;
        assert team[1..] == members;
        assert forall row :: row in team && !row.isPrimary ==> row in members;
        team
      case None => members
    else members
  }

  /** The roster as the handler builds it: the team members first, then the
      registration holder put in front when the wallet is a member's. */
  method LookupTeam(l: Ledger, eventKey: string, item: WalletItem) returns (teamMembers: seq<TeamRow>)
    ensures teamMembers == TeamRoster(l, eventKey, item)
  {
    teamMembers := GetTeamMembers(l.members, eventKey, item.regId, item.memberId);
    if Present(item.memberId) {
      var primary := GetPrimaryRegistrant(l, eventKey, item.regId);
      if primary.Some? {
        teamMembers := [primary.value] + teamMembers;
      }
    }
  }

  /** `GET /wallets/lookup`: a blank code is 400, an unknown one gives no item,
      otherwise the wallet with its team roster. */
  ghost function WalletLookupRoute(l: Ledger, eventKey: string, code: Option<string>): (reply: LookupReply)
    ensures IsBlank(code.GetOr("")) ==> reply == LookupBadRequest("code required")
    ensures !IsBlank(code.GetOr("")) && WalletLookupByCode(l, eventKey, Trim(code.GetOr(""))).None? ==> reply == NoWallet
    ensures !IsBlank(code.GetOr("")) && WalletLookupByCode(l, eventKey, Trim(code.GetOr(""))).Some? ==> reply.Found?
    ensures reply.Found? ==>
              WalletLookupByCode(l, eventKey, Trim(code.GetOr(""))) == Some(reply.item)
              && reply.team == TeamRoster(l, eventKey, reply.item)
  {
    var c := Trim(code.GetOr(""));
    if c == "" then LookupBadRequest("code required")
    else match WalletLookupByCode(l, eventKey, c)
      case None => NoWallet
      case Some(item) => Found(item, TeamRoster(l, eventKey, item))
  }

  // ---------------------------------------------------------------------------
  // Transactions

  datatype TxnRoute = DebitRoute | RewardRoute | PrizeRedeemRoute | CreditRoute

  /** The body of a transaction request. */
  datatype TxnBody = TxnBody(
    walletId: Option<string>,
    amount: int,
    gameId: Option<string>,
    presetId: Option<string>,
    actionId: Option<string>,
    reason: Option<string>,
    note: Option<string>)

  function DefaultReason(route: TxnRoute): (s: string)
    ensures IsTrimmed(s) && s != ""
  {
    match route
    case DebitRoute => "PLAY"
    case RewardRoute => "REWARD"
    case CreditRoute => "REWARD"
    case PrizeRedeemRoute => "PRIZE_REDEMPTION"
  }

  /** The request each transaction route makes of `staffTxnApply`:
      /txns/debit spends TOKENS (default reason PLAY), /txns/reward and /txns/credit
      credit TICKETS (default REWARD), /txns/prize-redeem spends TICKETS (default
      PRIZE_REDEMPTION, no game or preset); all enforce the check-in. */
  function TxnRequestFor(route: TxnRoute, b: TxnBody, eventKey: string, session: Session): (q: TxnRequest)
    ensures route == DebitRoute ==> q.txnType == Debit && q.currency == Tokens && q.presetId == None
    ensures route == RewardRoute || route == CreditRoute ==> q.txnType == Credit && q.currency == Tickets
    ensures route == PrizeRedeemRoute ==> q.txnType == Debit && q.currency == Tickets && q.gameId == None && q.presetId == None
    ensures q.enforceCheckedIn
    ensures q.eventKey == eventKey && q.amount == b.amount
    ensures q.staffId == session.staffId && q.staffUsername == session.username
    ensures route != PrizeRedeemRoute ==> q.gameId == OrNull(b.gameId)
    ensures route == RewardRoute || route == CreditRoute ==> q.presetId == OrNull(b.presetId)
    ensures q.walletId == Trim(b.walletId.GetOr("")) && q.actionId == Trim(b.actionId.GetOr(""))
    ensures !Present(b.reason) ==> q.reason == DefaultReason(route)
    ensures Present(b.reason) ==> q.reason == Trim(b.reason.value)
    ensures Present(b.note) ==> q.note == Some(Trim(b.note.value))
    ensures !Present(b.note) ==> q.note == None
  {
    var reason := if Present(b.reason) then Trim(b.reason.value) else Trim(DefaultReason(route));
    var note := if Present(b.note) then Some(Trim(b.note.value)) else None;
    var walletId := Trim(b.walletId.GetOr(""));
    var actionId := Trim(b.actionId.GetOr(""));
    var q := TxnRequest(eventKey, walletId, Debit, b.amount, reason, note, OrNull(b.gameId), None, Tokens, actionId,
                        session.staffId, session.username, true);
    match route
    case DebitRoute => q
    case RewardRoute => q.(txnType := Credit, presetId := OrNull(b.presetId), currency := Tickets)
    case CreditRoute => q.(txnType := Credit, presetId := OrNull(b.presetId), currency := Tickets)
    case PrizeRedeemRoute => q.(gameId := None, currency := Tickets)
  }

  /** /txns/credit is an alias of /txns/reward. */
  lemma CreditIsRewardAlias(b: TxnBody, eventKey: string, session: Session)
    ensures TxnRequestFor(CreditRoute, b, eventKey, session) == TxnRequestFor(RewardRoute, b, eventKey, session)
  {
  }

  /** The spending routes only lower a balance and the crediting routes only raise
      one: a fresh success records a balance_after below, respectively above, the
      wallet's balance before the call. */
  lemma RouteDirection(l: Ledger, route: TxnRoute, b: TxnBody, eventKey: string, session: Session, freshId: Uuid, now: Time)
    ensures var q := TxnRequestFor(route, b, eventKey, session);
            var r := Apply(l, q, freshId, now).0;
            r.Success? && FindTxn(l.txns, q.eventKey, q.actionId).None? ==>
              && q.walletId in l.wallets
              && (route == DebitRoute || route == PrizeRedeemRoute ==>
                    r.value.balanceAfter < Bal(l.wallets[q.walletId], q.currency))
              && (route == RewardRoute || route == CreditRoute ==>
                    r.value.balanceAfter > Bal(l.wallets[q.walletId], q.currency))
  {
    var q := TxnRequestFor(route, b, eventKey, session);
    ApplyContract(l, q, freshId, now);
  }

  /** The transaction handlers: build the route's request and apply it. */
  method TxnHandler(store: ArcadeStore, route: TxnRoute, b: TxnBody, eventKey: string, session: Session, freshId: Uuid, now: Time)
    returns (r: Result<Txn, TxnError>)
    modifies store
    ensures (r, store.Snapshot()) == Apply(old(store.Snapshot()), TxnRequestFor(route, b, eventKey, session), freshId, now)
  {
    r := store.StaffTxnApply(TxnRequestFor(route, b, eventKey, session), freshId, now);
  }

  // ---------------------------------------------------------------------------
  // Gate check-in

  datatype GateReply = GateBadRequest(error: string) | GateItem(item: Option<Registration>)

  /** `POST /checkin/approve`: a blank registration id is 400 and changes nothing. */
  method ApproveRoute(store: ArcadeStore, eventKey: string, regId: Option<string>, session: Session, now: Time)
    returns (reply: GateReply)
    modifies store
    ensures IsBlank(regId.GetOr("")) ==> reply == GateBadRequest("reg_id required") && store.Snapshot() == old(store.Snapshot())
    ensures !IsBlank(regId.GetOr("")) ==>
              var (item, l') := Approve(old(store.Snapshot()), eventKey, Trim(regId.GetOr("")), session.staffId, session.username, now);
              reply == GateItem(item) && store.Snapshot() == l'
  {
    var id := Trim(regId.GetOr(""));
    if id == "" {
      return GateBadRequest("reg_id required");
    }
    var item := store.CheckinApprove(eventKey, id, session.staffId, session.username, now);
    reply := GateItem(item);
  }

  /** `POST /checkin/reject`: a blank registration id is 400 and changes nothing;
      the reason is passed trimmed, a missing one as "". */
  method RejectRoute(store: ArcadeStore, eventKey: string, regId: Option<string>, reason: Option<string>, session: Session, now: Time)
    returns (reply: GateReply)
    modifies store
    ensures IsBlank(regId.GetOr("")) ==> reply == GateBadRequest("reg_id required") && store.Snapshot() == old(store.Snapshot())
    ensures !IsBlank(regId.GetOr("")) ==>
              var (item, l') := Reject(old(store.Snapshot()), eventKey, Trim(regId.GetOr("")), session.staffId, session.username,
                                       Some(Trim(reason.GetOr(""))), now);
              reply == GateItem(item) && store.Snapshot() == l'
  {
    var id := Trim(regId.GetOr(""));
    if id == "" {
      return GateBadRequest("reg_id required");
    }
    var r := Trim(reason.GetOr(""));
    var item := store.CheckinReject(eventKey, id, session.staffId, session.username, Some(r), now);
    reply := GateItem(item);
  }

  // ---------------------------------------------------------------------------
  // Resolved access behind requireAccess

  function FlagJson(f: Option<bool>): JsValue {
    if f.Some? then Bool(f.value) else Null
  }

  /** The session object carrying a role and a resolved access record as JSON. */
  function SessionJson(role: JsValue, a: Access): JsValue {
    Obj(map[
      "role" := role,
      "access" := Obj(map[
        "can_gate" := FlagJson(a.flags.canGate),
        "can_game" := FlagJson(a.flags.canGame),
        "can_prize" := FlagJson(a.flags.canPrize),
        "can_staff_checkin" := FlagJson(a.flags.canStaffCheckin),
        "can_manage_checkin_days" := FlagJson(a.flags.canManageCheckinDays),
        "staff_reg_no" := if a.staffRegNo.Some? then Str(a.staffRegNo.value) else Null])])
  }

  /** A route guarded by a flag admits a session exactly when its resolved flag is
      true; a NULL grant column refuses like false. */
  lemma GuardFollowsResolvedFlags(role: JsValue, a: Access)
    ensures RequireAccess(SessionJson(role, a), "can_gate") == Next <==> a.flags.canGate == Some(true)
    ensures RequireAccess(SessionJson(role, a), "can_game") == Next <==> a.flags.canGame == Some(true)
    ensures RequireAccess(SessionJson(role, a), "can_prize") == Next <==> a.flags.canPrize == Some(true)
    ensures RequireAccess(SessionJson(role, a), "can_staff_checkin") == Next <==> a.flags.canStaffCheckin == Some(true)
    ensures RequireAccess(SessionJson(role, a), "can_manage_checkin_days") == Next <==> a.flags.canManageCheckinDays == Some(true)
  {
  }

  /** Managing check-in days takes an explicit grant: no role default reaches the
      day-management routes. */
  lemma ManagingDaysNeedsAGrant(rows: seq<GrantRow>, eventKey: string, staffId: Option<string>, role: Option<string>, roleJson: JsValue)
    requires RequireAccess(SessionJson(roleJson, ResolveStaffAccess(rows, eventKey, staffId, role)), "can_manage_checkin_days") == Next
    ensures staffId.Some?
    ensures exists g :: (g in rows && g.eventKey == eventKey && g.staffId == staffId.value
                         && g.flags.canManageCheckinDays == Some(true))
  {
    GuardFollowsResolvedFlags(roleJson, ResolveStaffAccess(rows, eventKey, staffId, role));
    OnlyGrantsManageDays(rows, eventKey, staffId, role);
  }
}
