/** The arcade ledger: wallets with a token balance and a ticket balance, the
    append-only transaction log, attendee registrations with their gate check-in
    status, and the append-only staff audit log. */
module StaffArcadeModel {
  import opened Wrappers
  import opened Text
  import opened Tables

  const Credit := "CREDIT"
  const Debit := "DEBIT"
  const Tokens := "TOKENS"
  const Tickets := "TICKETS"
  const CheckedIn := "CHECKED_IN"
  const Rejected := "REJECTED"

  datatype Wallet = Wallet(
    eventKey: string,
    walletCode: string,
    balance: Option<int>,              // tokens; NULL reads as 0
    rewardPointsBalance: Option<int>,  // tickets; NULL reads as 0
    registrationId: Uuid,
    memberId: Option<Uuid>,
    updatedAt: Time)

  datatype Registration = Registration(
    eventKey: string,
    name: string,
    regNo: string,
    checkinStatus: Option<string>,
    checkinAt: Option<Time>,
    checkinByUsername: Option<string>,
    rejectReason: Option<string>,
    rejectedAt: Option<Time>,
    rejectedBy: Option<string>,
    updatedAt: Time)

  /** A team member listed under a registration. */
  datatype RegMember = RegMember(id: Uuid, eventKey: string, registrationId: Uuid, name: string, regNo: string)

  datatype Txn = Txn(
    id: Uuid,
    walletId: Uuid,
    txnType: string,
    amount: int,
    reason: string,
    actorType: string,
    actorId: Option<string>,
    eventKey: string,
    gameId: Option<string>,
    presetId: Option<string>,
    actionId: string,
    reversedTxnId: Option<Uuid>,
    balanceAfter: int,
    actorUsername: Option<string>,
    currency: string,
    createdAt: Time)

  datatype AuditEvent = AuditEvent(eventKey: string, staffId: Option<string>, staffUsername: string, action: string, entityId: Uuid)

  /** The tables the engine and the gate read and write. */
  datatype Ledger = Ledger(
    wallets: map<Uuid, Wallet>,
    registrations: map<Uuid, Registration>,
    members: seq<RegMember>,
    txns: seq<Txn>,
    audit: seq<AuditEvent>)

  /** The arguments of `staffTxnApply`. */
  datatype TxnRequest = TxnRequest(
    eventKey: string,
    walletId: Uuid,
    txnType: string,
    amount: int,
    reason: string,
    note: Option<string>,
    gameId: Option<string>,
    presetId: Option<string>,
    currency: string,
    actionId: string,
    staffId: Option<string>,
    staffUsername: Option<string>,
    enforceCheckedIn: bool)

  datatype TxnError =
    | InvalidType
    | InvalidAmount
    | InvalidCurrency
    | ActionIdRequired
    | ReasonRequired
    | WalletNotFound
    | NotCheckedIn(status: string)
    | InsufficientBalance
  {
    function Message(): string {
      match this
      case InvalidType => "Invalid type"
      case InvalidAmount => "amount must be > 0"
      case InvalidCurrency => "Invalid currency"
      case ActionIdRequired => "action_id required"
      case ReasonRequired => "reason required"
      case WalletNotFound => "wallet not found"
      case NotCheckedIn(status) => "Not checked-in (status=" + status + ")"
      case InsufficientBalance => "Insufficient balance"
    }
  }

  function Abs(x: int): nat { if x < 0 then -x else x }

  /** `signed(type, amount)`: CREDIT adds the magnitude of the amount, DEBIT takes
      it away, any other type is an error. */
  function Signed(txnType: string, amount: int): (r: Result<int, string>)
    ensures r.Success? <==> txnType == Credit || txnType == Debit
    ensures r.Success? ==> Abs(r.value) == Abs(amount)
    ensures txnType == Credit ==> r.value >= 0
    ensures txnType == Debit ==> r.value <= 0
    ensures r.Failure? ==> r.error == "type must be CREDIT or DEBIT"
  {
    var a: int := Abs(amount);
    if txnType == Credit then Success(a)
    else if txnType == Debit then Success(-a)
    else Failure("type must be CREDIT or DEBIT")
  }

  /** The argument checks of `staffTxnApply`, all of which come before any table
      is read. */
  predicate WellFormed(q: TxnRequest) {
    && (q.txnType == Credit || q.txnType == Debit)
    && q.amount > 0
    && (q.currency == Tokens || q.currency == Tickets)
    && q.actionId != ""
    && !IsBlank(q.reason)
  }

  /** The checks of `staffTxnApply` in their order; the signed delta when all pass. */
  function Validate(q: TxnRequest): (r: Result<int, TxnError>)
    ensures r.Success? <==> WellFormed(q)
    ensures r.Success? ==> r.value == if q.txnType == Credit then q.amount else -q.amount
    ensures q.txnType != Credit && q.txnType != Debit ==> r == Failure(InvalidType)
    ensures (q.txnType == Credit || q.txnType == Debit) && q.amount <= 0 ==> r == Failure(InvalidAmount)
    ensures ((q.txnType == Credit || q.txnType == Debit) && q.amount > 0 && q.currency != Tokens && q.currency != Tickets)
              ==> r == Failure(InvalidCurrency)
    ensures ((q.txnType == Credit || q.txnType == Debit) && q.amount > 0 && (q.currency == Tokens || q.currency == Tickets)
             && q.actionId == "") ==> r == Failure(ActionIdRequired)
    ensures ((q.txnType == Credit || q.txnType == Debit) && q.amount > 0 && (q.currency == Tokens || q.currency == Tickets)
             && q.actionId != "" && IsBlank(q.reason)) ==> r == Failure(ReasonRequired)
  {
    if q.txnType != Credit && q.txnType != Debit then Failure(InvalidType)
    else if q.amount <= 0 then Failure(InvalidAmount)
    else if q.currency != Tokens && q.currency != Tickets then Failure(InvalidCurrency)
    else if q.actionId == "" then Failure(ActionIdRequired)
    else if Trim(q.reason) == "" then Failure(ReasonRequired)
    else match Signed(q.txnType, q.amount)
      case Success(delta) => Success(delta)
      case Failure(_) => Failure(InvalidType)
  }

  /** The idempotency key of a transaction. */
  function TxnIdemKey(t: Txn): (string, string) { (t.eventKey, t.actionId) }

  /** The transaction already recorded for (event, action id), if any. */
  function FindTxn(txns: seq<Txn>, eventKey: string, actionId: string): (r: Option<Txn>)
    ensures r.Some? ==> r.value in txns && r.value.eventKey == eventKey && r.value.actionId == actionId
    ensures r.None? <==> forall t :: t in txns ==> !(t.eventKey == eventKey && t.actionId == actionId)
  {
    Lookup(txns, TxnIdemKey, (eventKey, actionId))
  }

  /** The wallet with this id exists in this event. */
  predicate HasWallet(l: Ledger, eventKey: string, walletId: Uuid) {
    walletId in l.wallets && l.wallets[walletId].eventKey == eventKey
  }

  /** The registration with this id exists in this event. */
  predicate HasRegistration(l: Ledger, eventKey: string, regId: Uuid) {
    regId in l.registrations && l.registrations[regId].eventKey == eventKey
  }

  /** The check-in status of a registration; None when the registration is absent
      or its status is NULL. */
  function RegStatus(l: Ledger, regId: Uuid, eventKey: string): Option<string> {
    if HasRegistration(l, eventKey, regId) then l.registrations[regId].checkinStatus else None
  }

  /** `st || "unknown"`. */
  function StatusText(st: Option<string>): (s: string)
    ensures s != ""
  {
    if Present(st) then st.value else "unknown"
  }

  /** The balance a currency selects: tickets for TICKETS, tokens otherwise. */
  function Bal(w: Wallet, currency: string): int {
    if currency == Tickets then w.rewardPointsBalance.GetOr(0) else w.balance.GetOr(0)
  }

  /** The wallet with the balance that `currency` selects set to `next`. */
  function SetBal(w: Wallet, currency: string, next: int, now: Time): (w': Wallet)
    ensures Bal(w', currency) == next
    ensures currency == Tickets ==> w'.balance == w.balance
    ensures currency != Tickets ==> w'.rewardPointsBalance == w.rewardPointsBalance
    ensures w'.(balance := w.balance, rewardPointsBalance := w.rewardPointsBalance, updatedAt := w.updatedAt) == w
  {
    if currency == Tickets then w.(rewardPointsBalance := Some(next), updatedAt := now)
    else w.(balance := Some(next), updatedAt := now)
  }

  /** The stored reason: the trimmed reason, followed by an em dash and the trimmed
      note when a non-empty note is given. */
  function FullReason(reason: string, note: Option<string>): (s: string)
    ensures |Trim(reason)| <= |s| && s[..|Trim(reason)|] == Trim(reason)
    ensures note.None? || note.value == "" ==> s == Trim(reason)
    ensures Present(note) ==> s[|Trim(reason)|..] == " \U{2014} " + Trim(note.value)
  {
    var head := Trim(reason);
    if Present(note) then
      var tail := " \U{2014} " + Trim(note.value);
      assert (head + tail)[..|head|] == head && (head + tail)[|head|..] == tail;
      head + tail
    else head
  }

  /** The row `staffTxnApply` inserts. */
  function NewTxn(q: TxnRequest, freshId: Uuid, next: int, now: Time): Txn {
    Txn(freshId, q.walletId, q.txnType, Abs(q.amount), FullReason(q.reason, q.note), "STAFF", OrNull(q.staffId),
        q.eventKey, OrNull(q.gameId), OrNull(q.presetId), q.actionId, None, next, OrNull(q.staffUsername),
        q.currency, now)
  }

  /** The wallet-stage checks pass: the wallet exists, its registration is checked in
      when that is enforced, and the selected balance does not go below zero. */
  predicate Admits(l: Ledger, q: TxnRequest, delta: int) {
    && HasWallet(l, q.eventKey, q.walletId)
    && (q.enforceCheckedIn ==> RegStatus(l, l.wallets[q.walletId].registrationId, q.eventKey) == Some(CheckedIn))
    && Bal(l.wallets[q.walletId], q.currency) + delta >= 0
  }

  /** `staffTxnApply`, as one atomic step on the ledger: validation, then replay of
      an earlier transaction with the same (event, action id), then the wallet,
      check-in and balance-floor checks, then the balance update and the insert. */
  ghost function Apply(l: Ledger, q: TxnRequest, freshId: Uuid, now: Time): (Result<Txn, TxnError>, Ledger)
  {
    match Validate(q)
    case Failure(e) => (Failure(e), l)
    case Success(delta) =>
      match FindTxn(l.txns, q.eventKey, q.actionId)
      case Some(t) => (Success(t), l)
      case None =>
        if !HasWallet(l, q.eventKey, q.walletId) then (Failure(WalletNotFound), l)
        else
          var w := l.wallets[q.walletId];
          var st := RegStatus(l, w.registrationId, q.eventKey);
          if q.enforceCheckedIn && st != Some(CheckedIn) then (Failure(NotCheckedIn(StatusText(st))), l)
          else
            var next := Bal(w, q.currency) + delta;
            if next < 0 then (Failure(InsufficientBalance), l)
            else
              var t := NewTxn(q, freshId, next, now);
              (Success(t), l.(wallets := l.wallets[q.walletId := SetBal(w, q.currency, next, now)], txns := l.txns + [t]))
  }

  /** What `staffTxnApply` promises: validation errors come first, even for a
      replay; a replay returns the recorded row and changes nothing; every failure
      leaves the ledger as it was; the wallet, check-in and balance-floor checks
      decide success, in that order; and a fresh success changes one balance field
      of one wallet and appends exactly one row. */
  lemma ApplyContract(l: Ledger, q: TxnRequest, freshId: Uuid, now: Time)
    // validation comes first, even for a replay
    ensures var r := Apply(l, q, freshId, now);
            Validate(q).Failure? ==> r == (Failure(Validate(q).error), l)
    // a replay returns the recorded transaction and changes nothing
    ensures var r := Apply(l, q, freshId, now);
            Validate(q).Success? && FindTxn(l.txns, q.eventKey, q.actionId).Some? ==>
              r == (Success(FindTxn(l.txns, q.eventKey, q.actionId).value), l)
    // all or nothing, and only wallets and the log ever change
    ensures var r := Apply(l, q, freshId, now);
            && (r.0.Failure? ==> r.1 == l)
            && r.1.registrations == l.registrations && r.1.members == l.members && r.1.audit == l.audit
            && r.1.wallets.Keys == l.wallets.Keys
    // the wallet-stage checks, in order
    ensures var r := Apply(l, q, freshId, now);
            Validate(q).Success? && FindTxn(l.txns, q.eventKey, q.actionId).None? ==>
              && (r.0.Success? <==> Admits(l, q, Validate(q).value))
              && (!HasWallet(l, q.eventKey, q.walletId) ==> r.0 == Failure(WalletNotFound))
              && (HasWallet(l, q.eventKey, q.walletId) && q.enforceCheckedIn
                  && RegStatus(l, l.wallets[q.walletId].registrationId, q.eventKey) != Some(CheckedIn) ==>
                    r.0 == Failure(NotCheckedIn(StatusText(RegStatus(l, l.wallets[q.walletId].registrationId, q.eventKey)))))
              && (r.0.Failure? && HasWallet(l, q.eventKey, q.walletId)
                  && !(q.enforceCheckedIn && RegStatus(l, l.wallets[q.walletId].registrationId, q.eventKey) != Some(CheckedIn)) ==>
                    r.0 == Failure(InsufficientBalance))
    // a fresh success: one field of one wallet, and one appended row
    ensures var r := Apply(l, q, freshId, now);
            r.0.Success? && FindTxn(l.txns, q.eventKey, q.actionId).None? ==>
              var t := r.0.value;
              var w := l.wallets[q.walletId];
              && HasWallet(l, q.eventKey, q.walletId)
              && r.1.txns == l.txns + [t]
              && r.1.wallets == l.wallets[q.walletId := SetBal(w, q.currency, t.balanceAfter, now)]
              && t.balanceAfter == Bal(w, q.currency) + (if q.txnType == Credit then q.amount else -q.amount)
              && t.balanceAfter >= 0
              && t.walletId == q.walletId && t.eventKey == q.eventKey && t.actionId == q.actionId
              && t.txnType == q.txnType && t.amount == q.amount && t.currency == q.currency
              && t.reason == FullReason(q.reason, q.note) && t.reversedTxnId == None
              && t.id == freshId && t.actorType == "STAFF"
              && t.actorId == OrNull(q.staffId) && t.actorUsername == OrNull(q.staffUsername)
              && t.gameId == OrNull(q.gameId) && t.presetId == OrNull(q.presetId)
  {
  }

  /** The audit row of a gate action. */
  function GateAudit(eventKey: string, staffId: Option<string>, staffUsername: Option<string>, action: string, regId: Uuid): AuditEvent {
    AuditEvent(eventKey, staffId, staffUsername.GetOr(""), action, regId)
  }

  /** `checkinApprove`: the registration of this event becomes CHECKED_IN, stamped
      with the time and the approving username, and one audit row is appended; a
      missing registration gives null and changes nothing. */
  ghost function Approve(l: Ledger, eventKey: string, regId: Uuid, staffId: Option<string>, staffUsername: Option<string>, now: Time)
    : (r: (Option<Registration>, Ledger))
    ensures r.0.Some? <==> HasRegistration(l, eventKey, regId)
    ensures r.0.None? ==> r.1 == l
    ensures r.0.Some? ==>
              var old_ := l.registrations[regId];
              && r.1 == l.(registrations := l.registrations[regId := r.0.value],
                           audit := l.audit + [GateAudit(eventKey, staffId, staffUsername, "CHECKIN_APPROVE", regId)])
              && r.0.value.checkinStatus == Some(CheckedIn)
              && r.0.value.checkinAt == Some(now) && r.0.value.updatedAt == now
              && r.0.value.checkinByUsername == OrNull(staffUsername)
              && r.0.value.(checkinStatus := old_.checkinStatus, checkinAt := old_.checkinAt,
                            checkinByUsername := old_.checkinByUsername, updatedAt := old_.updatedAt) == old_
  {
    if !HasRegistration(l, eventKey, regId) then (None, l)
    else
      var item := l.registrations[regId].(
        checkinStatus := Some(CheckedIn), checkinAt := Some(now),
        checkinByUsername := OrNull(staffUsername), updatedAt := now);
      (Some(item), l.(registrations := l.registrations[regId := item],
                      audit := l.audit + [GateAudit(eventKey, staffId, staffUsername, "CHECKIN_APPROVE", regId)]))
  }

  /** `checkinReject`: the registration of this event becomes REJECTED with the
      reason (an empty one stored as null), stamped with the time and the rejecting
      staff id, and one audit row is appended; a missing registration gives null and
      changes nothing. */
  ghost function Reject(l: Ledger, eventKey: string, regId: Uuid, staffId: Option<string>, staffUsername: Option<string>,
                        reason: Option<string>, now: Time)
    : (r: (Option<Registration>, Ledger))
    ensures r.0.Some? <==> HasRegistration(l, eventKey, regId)
    ensures r.0.None? ==> r.1 == l
    ensures r.0.Some? ==>
              var old_ := l.registrations[regId];
              && r.1 == l.(registrations := l.registrations[regId := r.0.value],
                           audit := l.audit + [GateAudit(eventKey, staffId, staffUsername, "CHECKIN_REJECT", regId)])
              && r.0.value.checkinStatus == Some(Rejected)
              && (r.0.value.rejectReason == None <==> reason.None? || reason.value == "")
              && (r.0.value.rejectReason.Some? ==> r.0.value.rejectReason == reason)
              && r.0.value.rejectedAt == Some(now) && r.0.value.rejectedBy == staffId && r.0.value.updatedAt == now
              && r.0.value.(checkinStatus := old_.checkinStatus, rejectReason := old_.rejectReason,
                            rejectedAt := old_.rejectedAt, rejectedBy := old_.rejectedBy, updatedAt := old_.updatedAt) == old_
  {
    if !HasRegistration(l, eventKey, regId) then (None, l)
    else
      var safeReason := reason.GetOr("");
      var item := l.registrations[regId].(
        checkinStatus := Some(Rejected), rejectReason := NullIfEmpty(safeReason),
        rejectedAt := Some(now), rejectedBy := staffId, updatedAt := now);
      (Some(item), l.(registrations := l.registrations[regId := item],
                      audit := l.audit + [GateAudit(eventKey, staffId, staffUsername, "CHECKIN_REJECT", regId)]))
  }

  // ---------------------------------------------------------------------------
  // Properties that relate several steps

  /** Once a transaction has succeeded, any later call with the same event and
      action id (and valid arguments, whatever its wallet, type or amount) returns
      that same record and changes nothing: applying twice is applying once. */
  lemma ReplayReturnsOriginal(l: Ledger, q: TxnRequest, q2: TxnRequest, id1: Uuid, id2: Uuid, now1: Time, now2: Time)
    requires Apply(l, q, id1, now1).0.Success?
    requires q2.eventKey == q.eventKey && q2.actionId == q.actionId && Validate(q2).Success?
    ensures Apply(Apply(l, q, id1, now1).1, q2, id2, now2) == Apply(l, q, id1, now1)
  {
    assert Validate(q).Success?;
    var key := (q.eventKey, q.actionId);
    var found := FindTxn(l.txns, q.eventKey, q.actionId);
    if found.None? {
      var w := l.wallets[q.walletId];
      var next := Bal(w, q.currency) + Validate(q).value;
      var t := NewTxn(q, id1, next, now1);
      var l1 := l.(wallets := l.wallets[q.walletId := SetBal(w, q.currency, next, now1)], txns := l.txns + [t]);
      assert Apply(l, q, id1, now1) == (Success(t), l1);
      assert TxnIdemKey(t) == key;
      LookupAfterAppend(l.txns, TxnIdemKey, t);
    }
  }

  /** Action ids stay unique per event. */
  lemma ApplyKeepsActionIdsUnique(l: Ledger, q: TxnRequest, freshId: Uuid, now: Time)
    requires UniqueKey(l.txns, TxnIdemKey)
    ensures UniqueKey(Apply(l, q, freshId, now).1.txns, TxnIdemKey)
  {
    var (r, l') := Apply(l, q, freshId, now);
    if l'.txns != l.txns {
      assert FindTxn(l.txns, q.eventKey, q.actionId).None?;
      forall j | 0 <= j < |l.txns| ensures TxnIdemKey(l.txns[j]) != TxnIdemKey(r.value) {
        assert l.txns[j] in l.txns;
      }
      AppendKeepsUnique(l.txns, TxnIdemKey, r.value);
    }
  }

  /** No wallet balance is negative. */
  ghost predicate NonNegative(l: Ledger) {
    forall id :: id in l.wallets ==> Bal(l.wallets[id], Tokens) >= 0 && Bal(l.wallets[id], Tickets) >= 0
  }

  /** The balance floor: a ledger with no negative balance never gets one. */
  lemma ApplyKeepsBalancesNonNegative(l: Ledger, q: TxnRequest, freshId: Uuid, now: Time)
    requires NonNegative(l)
    ensures NonNegative(Apply(l, q, freshId, now).1)
  {
    var (r, l') := Apply(l, q, freshId, now);
    forall id | id in l'.wallets
      ensures Bal(l'.wallets[id], Tokens) >= 0 && Bal(l'.wallets[id], Tickets) >= 0
    {
      if l' != l && id == q.walletId {
        var w := l.wallets[id];
        var w' := l'.wallets[id];
        assert w' == SetBal(w, q.currency, r.value.balanceAfter, now);
        assert Bal(w', Tokens) >= 0 && Bal(w', Tickets) >= 0 by {
          if q.currency == Tickets {
            assert w'.balance == w.balance;
          } else {
            assert w'.rewardPointsBalance == w.rewardPointsBalance;
          }
        }
      }
    }
  }

  /** The signed effect of a transaction row on its wallet. */
  function Contribution(t: Txn): int {
    if t.txnType == Credit then t.amount else -t.amount
  }

  /** The net of a wallet's transactions in one currency. */
  function LedgerSum(txns: seq<Txn>, walletId: Uuid, currency: string): int {
    if txns == [] then 0
    else (if txns[0].walletId == walletId && txns[0].currency == currency then Contribution(txns[0]) else 0)
         + LedgerSum(txns[1..], walletId, currency)
  }

  lemma {:induction false} LedgerSumAppend(txns: seq<Txn>, t: Txn, walletId: Uuid, currency: string)
    ensures LedgerSum(txns + [t], walletId, currency)
            == LedgerSum(txns, walletId, currency) + (if t.walletId == walletId && t.currency == currency then Contribution(t) else 0)
  {
    if txns != [] {
      assert (txns + [t])[1..] == txns[1..] + [t];
      LedgerSumAppend(txns[1..], t, walletId, currency);
    }
  }

  /** How far a wallet's balance in one currency is from the net of its logged
      transactions (its opening balance). */
  function Drift(l: Ledger, walletId: Uuid, currency: string): int
    requires walletId in l.wallets
  {
    Bal(l.wallets[walletId], currency) - LedgerSum(l.txns, walletId, currency)
  }

  /** The balance moves exactly by the logged amount: for every wallet and currency,
      the difference between balance and the net of the log is unchanged. */
  lemma ApplyKeepsLedgerInStep(l: Ledger, q: TxnRequest, freshId: Uuid, now: Time, walletId: Uuid, currency: string)
    requires walletId in l.wallets && (currency == Tokens || currency == Tickets)
    ensures walletId in Apply(l, q, freshId, now).1.wallets
    ensures Drift(Apply(l, q, freshId, now).1, walletId, currency) == Drift(l, walletId, currency)
  {
    var (r, l') := Apply(l, q, freshId, now);
    if l' != l {
      var t := r.value;
      LedgerSumAppend(l.txns, t, walletId, currency);
      var w := l.wallets[q.walletId];
      if walletId == q.walletId && currency == q.currency {
        assert Bal(l'.wallets[walletId], currency) == Bal(w, currency) + Contribution(t);
      } else if walletId == q.walletId {
        assert Bal(l'.wallets[walletId], currency) == Bal(w, currency) by {
          var w' := SetBal(w, q.currency, t.balanceAfter, now);
          if q.currency == Tickets { assert w'.balance == w.balance; }
          else { assert w'.rewardPointsBalance == w.rewardPointsBalance; }
        }
      }
    }
  }

  /** Every balance equals the net of its logged transactions. */
  ghost predicate Balanced(l: Ledger) {
    forall id :: id in l.wallets ==> Drift(l, id, Tokens) == 0 && Drift(l, id, Tickets) == 0
  }

  /** A ledger whose balances are backed by its log stays so. */
  lemma ApplyKeepsBalanced(l: Ledger, q: TxnRequest, freshId: Uuid, now: Time)
    requires Balanced(l)
    ensures Balanced(Apply(l, q, freshId, now).1)
  {
    var l' := Apply(l, q, freshId, now).1;
    forall id | id in l'.wallets ensures Drift(l', id, Tokens) == 0 && Drift(l', id, Tickets) == 0 {
      ApplyKeepsLedgerInStep(l, q, freshId, now, id, Tokens);
      ApplyKeepsLedgerInStep(l, q, freshId, now, id, Tickets);
    }
  }

  /** After a rejection, a checked-in-only transaction on any wallet of that
      registration fails with status REJECTED and changes nothing (unless it
      replays an earlier one). */
  lemma RejectedRegistrationCannotSpend(
    l: Ledger, eventKey: string, regId: Uuid, staffId: Option<string>, staffUsername: Option<string>,
    reason: Option<string>, now: Time, q: TxnRequest, freshId: Uuid, now2: Time)
    requires Reject(l, eventKey, regId, staffId, staffUsername, reason, now).0.Some?
    requires q.eventKey == eventKey && q.enforceCheckedIn && Validate(q).Success?
    requires HasWallet(l, eventKey, q.walletId) && l.wallets[q.walletId].registrationId == regId
    requires FindTxn(l.txns, q.eventKey, q.actionId).None?
    ensures var l1 := Reject(l, eventKey, regId, staffId, staffUsername, reason, now).1;
            Apply(l1, q, freshId, now2) == (Failure(NotCheckedIn(Rejected)), l1)
  {
    var l1 := Reject(l, eventKey, regId, staffId, staffUsername, reason, now).1;
    assert RegStatus(l1, regId, eventKey) == Some(Rejected);
    assert HasWallet(l1, q.eventKey, q.walletId);
  }

  /** After an approval, a transaction on a wallet of that registration is refused
      only for an insufficient balance. */
  lemma ApprovedRegistrationCanSpend(
    l: Ledger, eventKey: string, regId: Uuid, staffId: Option<string>, staffUsername: Option<string>,
    now: Time, q: TxnRequest, freshId: Uuid, now2: Time)
    requires Approve(l, eventKey, regId, staffId, staffUsername, now).0.Some?
    requires q.eventKey == eventKey && Validate(q).Success?
    requires HasWallet(l, eventKey, q.walletId) && l.wallets[q.walletId].registrationId == regId
    requires FindTxn(l.txns, q.eventKey, q.actionId).None?
    ensures var l1 := Approve(l, eventKey, regId, staffId, staffUsername, now).1;
            var r := Apply(l1, q, freshId, now2).0;
            r.Success? || r == Failure(InsufficientBalance)
  {
    var l1 := Approve(l, eventKey, regId, staffId, staffUsername, now).1;
    assert RegStatus(l1, regId, eventKey) == Some(CheckedIn);
    assert HasWallet(l1, q.eventKey, q.walletId);
  }

  // ---------------------------------------------------------------------------
  // Wallet lookup by code

  /** The fields of a looked-up wallet that the roster depends on. */
  datatype WalletItem = WalletItem(walletId: Uuid, regId: Uuid, memberId: Option<Uuid>)

  /** `walletLookupByCode`: some wallet of the event with this code whose
      registration exists (`LIMIT 1` without an order picks any of them). */
  ghost function WalletLookupByCode(l: Ledger, eventKey: string, code: string): (r: Option<WalletItem>)
    ensures r.None? <==> forall id :: id in l.wallets ==>
              !(l.wallets[id].eventKey == eventKey && l.wallets[id].walletCode == code
                && l.wallets[id].registrationId in l.registrations)
    ensures r.Some? ==>
              var id := r.value.walletId;
              && id in l.wallets && l.wallets[id].eventKey == eventKey && l.wallets[id].walletCode == code
              && r.value.regId == l.wallets[id].registrationId && r.value.regId in l.registrations
              && r.value.memberId == l.wallets[id].memberId
  {
    if exists id :: id in l.wallets && l.wallets[id].eventKey == eventKey && l.wallets[id].walletCode == code
                    && l.wallets[id].registrationId in l.registrations
    then
      var id :| id in l.wallets && l.wallets[id].eventKey == eventKey && l.wallets[id].walletCode == code
                && l.wallets[id].registrationId in l.registrations;
      Some(WalletItem(id, l.wallets[id].registrationId, l.wallets[id].memberId))
    else None
  }

  // ---------------------------------------------------------------------------
  // Team roster of the wallet lookup

  /** A row of the team roster. */
  datatype TeamRow = TeamRow(memberId: Option<Uuid>, name: string, regNo: string, isPrimary: bool)

  /** `getTeamMembers`: the registration's members in this event, leaving out the
      member `excludeMemberId` when one is given. */
  function GetTeamMembers(members: seq<RegMember>, eventKey: string, regId: Uuid, excludeMemberId: Option<Uuid>)
    : (rows: seq<TeamRow>)
    ensures forall row :: row in rows ==> !row.isPrimary && row.memberId.Some?
    ensures forall row :: row in rows ==> Present(excludeMemberId) ==> row.memberId != excludeMemberId
    ensures forall row :: row in rows ==>
              exists m :: m in members && m.registrationId == regId && m.eventKey == eventKey
                           && Some(m.id) != OrNull(excludeMemberId) && row == TeamRow(Some(m.id), m.name, m.regNo, false)
    ensures forall m :: (m in members && m.registrationId == regId && m.eventKey == eventKey
                         && Some(m.id) != OrNull(excludeMemberId)) ==> TeamRow(Some(m.id), m.name, m.regNo, false) in rows
  {
    if members == [] then []
    else
      var m := members[0];
      var rest := GetTeamMembers(members[1..], eventKey, regId, excludeMemberId);
      if m.registrationId == regId && m.eventKey == eventKey && Some(m.id) != OrNull(excludeMemberId)
      then [TeamRow(Some(m.id), m.name, m.regNo, false)] + rest
      else rest
  }

  /** `getPrimaryRegistrant`: the registration holder as a roster row, or null. */
  function GetPrimaryRegistrant(l: Ledger, eventKey: string, regId: Uuid): (r: Option<TeamRow>)
    ensures r.Some? <==> HasRegistration(l, eventKey, regId)
    ensures r.Some? ==> r.value.isPrimary && r.value.memberId == None
    ensures r.Some? ==> r.value.name == l.registrations[regId].name && r.value.regNo == l.registrations[regId].regNo
  {
    if HasRegistration(l, eventKey, regId) then
      var reg := l.registrations[regId];
      Some(TeamRow(None, reg.name, reg.regNo, true))
    else None
  }

  // ---------------------------------------------------------------------------
  // The store

  /** The ledger tables, updated in place. */
  class ArcadeStore {
    var wallets: map<Uuid, Wallet>
    var registrations: map<Uuid, Registration>
    var members: seq<RegMember>
    var txns: seq<Txn>
    var audit: seq<AuditEvent>

    function Snapshot(): Ledger
      reads this
    {
      Ledger(wallets, registrations, members, txns, audit)
    }

    constructor (l: Ledger)
      ensures Snapshot() == l
    {
      wallets, registrations, members, txns, audit := l.wallets, l.registrations, l.members, l.txns, l.audit;
    }

    /** `staffTxnApply`. Every check comes before the first write, so a failure
        leaves the tables as they were. */
    method StaffTxnApply(q: TxnRequest, freshId: Uuid, now: Time) returns (r: Result<Txn, TxnError>)
      modifies this
      ensures (r, Snapshot()) == Apply(old(Snapshot()), q, freshId, now)
    {
      var v := Validate(q);
      if v.Failure? {
        return Failure(v.error);
      }
      var delta := v.value;
      var existing := FindTxn(txns, q.eventKey, q.actionId);
      if existing.Some? {
        return Success(existing.value);
      }
      if !(q.walletId in wallets && wallets[q.walletId].eventKey == q.eventKey) {
        return Failure(WalletNotFound);
      }
      var w := wallets[q.walletId];
      if q.enforceCheckedIn {
        var st := RegStatus(Snapshot(), w.registrationId, q.eventKey);
        if st != Some(CheckedIn) {
          return Failure(NotCheckedIn(StatusText(st)));
        }
      }
      var next := Bal(w, q.currency) + delta;
      if next < 0 {
        return Failure(InsufficientBalance);
      }
      wallets := wallets[q.walletId := SetBal(w, q.currency, next, now)];
      var t := NewTxn(q, freshId, next, now);
      txns := txns + [t];
      r := Success(t);
    }

    /** `checkinApprove`. */
    method CheckinApprove(eventKey: string, regId: Uuid, staffId: Option<string>, staffUsername: Option<string>, now: Time)
      returns (item: Option<Registration>)
      modifies this
      ensures (item, Snapshot()) == Approve(old(Snapshot()), eventKey, regId, staffId, staffUsername, now)
    {
      if !(regId in registrations && registrations[regId].eventKey == eventKey) {
        return None;
      }
      var updated := registrations[regId].(
        checkinStatus := Some(CheckedIn), checkinAt := Some(now),
        checkinByUsername := OrNull(staffUsername), updatedAt := now);
      registrations := registrations[regId := updated];
      audit := audit + [GateAudit(eventKey, staffId, staffUsername, "CHECKIN_APPROVE", regId)];
      item := Some(updated);
    }

    /** `checkinReject`. */
    method CheckinReject(eventKey: string, regId: Uuid, staffId: Option<string>, staffUsername: Option<string>,
                         reason: Option<string>, now: Time)
      returns (item: Option<Registration>)
      modifies this
      ensures (item, Snapshot()) == Reject(old(Snapshot()), eventKey, regId, staffId, staffUsername, reason, now)
    {
      var safeReason := reason.GetOr("");
      if !(regId in registrations && registrations[regId].eventKey == eventKey) {
        return None;
      }
      var updated := registrations[regId].(
        checkinStatus := Some(Rejected), rejectReason := NullIfEmpty(safeReason),
        rejectedAt := Some(now), rejectedBy := staffId, updatedAt := now);
      registrations := registrations[regId := updated];
      audit := audit + [GateAudit(eventKey, staffId, staffUsername, "CHECKIN_REJECT", regId)];
      item := Some(updated);
    }
  }
}
