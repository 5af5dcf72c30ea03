/** Staff attendance: check-in days (one per event and date), the predefined staff
    member list, and scans upserted on (event, day, registration number). */
module StaffCheckinModel {
  import opened Wrappers
  import opened Text
  import opened Js
  import opened Tables

  datatype Day = Day(
    id: Uuid,
    eventKey: string,
    checkinDate: string,
    title: Option<string>,
    note: Option<string>,
    isActive: bool,
    createdByStaffId: Option<string>,
    createdAt: Time,
    updatedAt: Time)

  datatype StaffCheckin = StaffCheckin(
    id: Uuid,
    eventKey: string,
    dayId: Uuid,
    staffRegNo: string,
    checkedInAt: Time,
    checkedInByStaffId: Option<string>,
    checkedInByUsername: Option<string>,
    source: string,
    createdAt: Time)

  datatype StaffMember = StaffMember(id: Uuid, eventKey: string, regNo: string, name: string, isActive: bool)

  datatype CheckinError = BadDate | RegNoRequired {
    function Message(): string {
      match this
      case BadDate => "checkin_date must be YYYY-MM-DD"
      case RegNoRequired => "reg_no required"
    }
  }

  /** The source every scan row is inserted with. */
  const AppScan := "APP_SCAN"

  // Keys of the tables.
  function DayPk(d: Day): Uuid { d.id }
  function DayNaturalKey(d: Day): (string, string) { (d.eventKey, d.checkinDate) }
  function DayEventId(d: Day): (string, Uuid) { (d.eventKey, d.id) }
  function DayActiveDate(d: Day): (string, string, bool) { (d.eventKey, d.checkinDate, d.isActive) }
  function CheckinPk(c: StaffCheckin): Uuid { c.id }
  function CheckinNaturalKey(c: StaffCheckin): (string, Uuid, string) { (c.eventKey, c.dayId, c.staffRegNo) }
  function MemberActiveRegNo(m: StaffMember): (string, string, bool) { (m.eventKey, m.regNo, m.isActive) }

  /** `String(value || "").trim().toUpperCase()`. */
  function NormalizeRegNo(value: Option<string>): (r: string)
    ensures IsTrimmed(r)
    ensures forall i :: 0 <= i < |r| ==> !('a' <= r[i] <= 'z')
    ensures r == "" <==> value.None? || IsBlank(value.value)
    ensures var t := Trim(value.GetOr(""));
            |r| == |t| && forall i :: 0 <= i < |r| ==> r[i] == UpperChar(t[i])
  {
    var t := Trim(value.GetOr(""));
    ToUpperIdempotent(t);
    ToUpper(t)
  }

  /** Normalising twice is normalising once. */
  lemma NormalizeIdempotent(value: Option<string>)
    ensures NormalizeRegNo(Some(NormalizeRegNo(value))) == NormalizeRegNo(value)
  {
    var n := NormalizeRegNo(value);
    ToUpperIdempotent(Trim(value.GetOr("")));
    assert Trim(n) == n;
  }

  predicate IsDigit(c: char) { '0' <= c <= '9' }

  /** The pattern `^\d{4}-\d{2}-\d{2}$`. */
  predicate IsDateText(s: string) {
    && |s| == 10
    && IsDigit(s[0]) && IsDigit(s[1]) && IsDigit(s[2]) && IsDigit(s[3])
    && s[4] == '-' && IsDigit(s[5]) && IsDigit(s[6])
    && s[7] == '-' && IsDigit(s[8]) && IsDigit(s[9])
  }

  /** `createCheckinDay`'s guard: the trimmed date text must match the pattern. */
  function ValidateDate(checkinDate: Option<string>): (r: Result<string, CheckinError>)
    ensures r.Success? <==> IsDateText(Trim(checkinDate.GetOr("")))
    ensures r.Success? ==> r.value == Trim(checkinDate.GetOr(""))
    ensures r.Failure? ==> r.error == BadDate
  {
    var dateText := Trim(checkinDate.GetOr(""));
    if IsDateText(dateText) then Success(dateText) else Failure(BadDate)
  }

  /** `findDayById`: the day with this id in this event, or null. */
  function FindDayById(days: seq<Day>, eventKey: string, dayId: Uuid): (r: Option<Day>)
    ensures r.Some? ==> r.value in days && r.value.eventKey == eventKey && r.value.id == dayId
    ensures r.None? <==> forall d :: d in days ==> !(d.eventKey == eventKey && d.id == dayId)
  {
    Lookup(days, DayEventId, (eventKey, dayId))
  }

  /** `findActiveDayByDate`: an active day of this event on this date, or null. */
  function FindActiveDayByDate(days: seq<Day>, eventKey: string, dateText: string): (r: Option<Day>)
    ensures r.Some? ==> r.value in days && r.value.eventKey == eventKey && r.value.checkinDate == dateText && r.value.isActive
    ensures r.None? <==> forall d :: d in days ==> !(d.eventKey == eventKey && d.checkinDate == dateText && d.isActive)
  {
    Lookup(days, DayActiveDate, (eventKey, dateText, true))
  }

  /** `findMemberByRegNo`: null for a blank registration number, otherwise an active
      member of the event whose registration number is the normalised one. */
  function FindMemberByRegNo(members: seq<StaffMember>, eventKey: string, regNo: Option<string>): (r: Option<StaffMember>)
    ensures NormalizeRegNo(regNo) == "" ==> r == None
    ensures r.Some? ==> r.value in members && r.value.eventKey == eventKey && r.value.isActive
                        && r.value.regNo == NormalizeRegNo(regNo) && r.value.regNo != ""
    ensures r.None? && NormalizeRegNo(regNo) != "" ==>
              forall m :: m in members ==> !(m.eventKey == eventKey && m.regNo == NormalizeRegNo(regNo) && m.isActive)
  {
    var normalized := NormalizeRegNo(regNo);
    if normalized == "" then None
    else Lookup(members, MemberActiveRegNo, (eventKey, normalized, true))
  }

  /** A row of `myCheckins`: a scan joined with its day. */
  datatype MyCheckinRow = MyCheckinRow(checkin: StaffCheckin, day: Day)

  /** The scans of one event and registration number, each joined with the day it
      names; scans whose day is gone drop out, as in an inner join. */
  function JoinedScans(checkins: seq<StaffCheckin>, days: seq<Day>, eventKey: string, regNo: string): (rows: seq<MyCheckinRow>)
    ensures |rows| <= |checkins|
    ensures forall row :: row in rows ==>
              row.checkin in checkins && row.checkin.eventKey == eventKey && row.checkin.staffRegNo == regNo
              && row.day in days && row.day.id == row.checkin.dayId
    ensures forall c :: (c in checkins && c.eventKey == eventKey && c.staffRegNo == regNo
                         && Lookup(days, DayPk, c.dayId).Some?) ==> MyCheckinRow(c, Lookup(days, DayPk, c.dayId).value) in rows
  {
    if checkins == [] then []
    else
      var rest := JoinedScans(checkins[1..], days, eventKey, regNo);
      var c := checkins[0];
      var day := Lookup(days, DayPk, c.dayId);
      if c.eventKey == eventKey && c.staffRegNo == regNo && day.Some? then [MyCheckinRow(c, day.value)] + rest
      else rest
  }

  function Take<T>(s: seq<T>, n: nat): (r: seq<T>)
    ensures |r| == if n < |s| then n else |s|
    ensures r == s[..|r|]
  {
    if n < |s| then s[..n] else s
  }

  /** `myCheckins`: nothing for a blank registration number; otherwise at most
      `limit` of that registration number's scans in the event, with their days. */
  function MyCheckins(checkins: seq<StaffCheckin>, days: seq<Day>, eventKey: string, staffRegNo: Option<string>, limit: nat)
    : (rows: seq<MyCheckinRow>)
    ensures NormalizeRegNo(staffRegNo) == "" ==> rows == []
    ensures |rows| <= limit
    ensures forall row :: row in rows ==>
              row.checkin in checkins && row.checkin.eventKey == eventKey
              && row.checkin.staffRegNo == NormalizeRegNo(staffRegNo)
              && row.day in days && row.day.id == row.checkin.dayId
    ensures NormalizeRegNo(staffRegNo) != "" ==>
              rows == Take(JoinedScans(checkins, days, eventKey, NormalizeRegNo(staffRegNo)), limit)
  {
    var normalized := NormalizeRegNo(staffRegNo);
    if normalized == "" then []
    else
      var all := JoinedScans(checkins, days, eventKey, normalized);
      var rows := Take(all, limit);
      assert forall row :: row in rows ==> row in all;
      rows
  }

  /** What a scan does to the scan table: the row for (event, day, reg no) is
      stamped with the new time and actor if it exists, and inserted otherwise. */
  ghost predicate ScanEffect(
    before: seq<StaffCheckin>, after: seq<StaffCheckin>,
    eventKey: string, dayId: Uuid, regNo: string,
    staffId: Option<string>, staffUsername: Option<string>,
    freshId: Uuid, now: Time, item: StaffCheckin)
  {
    && item.eventKey == eventKey && item.dayId == dayId && item.staffRegNo == regNo
    && item.checkedInAt == now
    && item.checkedInByStaffId == OrNull(staffId)
    && item.checkedInByUsername == OrNull(staffUsername)
    && match IndexOf(before, CheckinNaturalKey, (eventKey, dayId, regNo))
       case Some(i) =>
         && after == before[i := item]
         && item.id == before[i].id && item.source == before[i].source && item.createdAt == before[i].createdAt
       case None =>
         && after == before + [item]
         && item.id == freshId && item.source == AppScan && item.createdAt == now
  }

  /** What creating a day does to the day table: the result is active and dated
      `dateText`; an existing (event, date) day is replaced in place, keeping its id,
      creator and creation time and, where the new title or note is blank, its old
      one; otherwise a new day is appended. */
  ghost predicate DayUpsert(
    before: seq<Day>, after: seq<Day>, eventKey: string, dateText: string,
    newTitle: string, newNote: string, createdByStaffId: Option<string>,
    freshId: Uuid, now: Time, day: Day)
  {
    && day.isActive && day.eventKey == eventKey && day.checkinDate == dateText && day.updatedAt == now
    && (newTitle != "" ==> day.title == Some(newTitle))
    && (newNote != "" ==> day.note == Some(newNote))
    && match IndexOf(before, DayNaturalKey, (eventKey, dateText))
       case Some(i) =>
         && after == before[i := day]
         && day.id == before[i].id
         && day.createdByStaffId == before[i].createdByStaffId
         && day.createdAt == before[i].createdAt
         && (newTitle == "" ==> day.title == before[i].title)
         && (newNote == "" ==> day.note == before[i].note)
       case None =>
         && after == before + [day]
         && day.id == freshId
         && day.createdByStaffId == OrNull(createdByStaffId)
         && day.createdAt == now
         && (newTitle == "" ==> day.title == None)
         && (newNote == "" ==> day.note == None)
  }

  /** Reactivating the day that holds (event, date) is the upsert's conflict branch,
      and keeps both day keys unique. */
  lemma ReactivateIsUpsert(
    days: seq<Day>, i: nat, eventKey: string, dateText: string, titleText: string, noteText: string,
    createdByStaffId: Option<string>, freshId: Uuid, now: Time)
    requires IndexOf(days, DayNaturalKey, (eventKey, dateText)) == Some(i)
    requires UniqueKey(days, DayPk) && UniqueKey(days, DayNaturalKey)
    ensures var day := days[i].(title := Coalesce(NullIfEmpty(titleText), days[i].title),
                                note := Coalesce(NullIfEmpty(noteText), days[i].note), isActive := true, updatedAt := now);
            && DayUpsert(days, days[i := day], eventKey, dateText, titleText, noteText, createdByStaffId, freshId, now, day)
            && UniqueKey(days[i := day], DayPk) && UniqueKey(days[i := day], DayNaturalKey)
  {
    var day := days[i].(title := Coalesce(NullIfEmpty(titleText), days[i].title),
                        note := Coalesce(NullIfEmpty(noteText), days[i].note), isActive := true, updatedAt := now);
    ReplaceKeepsUnique(days, DayPk, i, day);
    ReplaceKeepsUnique(days, DayNaturalKey, i, day);
  }

  /** Appending a new day for an unused (event, date) is the upsert's insert branch,
      and keeps both day keys unique. */
  lemma InsertIsUpsert(
    days: seq<Day>, eventKey: string, dateText: string, titleText: string, noteText: string,
    createdByStaffId: Option<string>, freshId: Uuid, now: Time)
    requires IndexOf(days, DayNaturalKey, (eventKey, dateText)).None?
    requires forall d :: d in days ==> d.id != freshId
    requires UniqueKey(days, DayPk) && UniqueKey(days, DayNaturalKey)
    ensures var day := Day(freshId, eventKey, dateText, NullIfEmpty(titleText), NullIfEmpty(noteText), true,
                           OrNull(createdByStaffId), now, now);
            && DayUpsert(days, days + [day], eventKey, dateText, titleText, noteText, createdByStaffId, freshId, now, day)
            && UniqueKey(days + [day], DayPk) && UniqueKey(days + [day], DayNaturalKey)
  {
    var day := Day(freshId, eventKey, dateText, NullIfEmpty(titleText), NullIfEmpty(noteText), true,
                   OrNull(createdByStaffId), now, now);
    AppendKeepsUnique(days, DayPk, day);
    AppendKeepsUnique(days, DayNaturalKey, day);
  }

  /** The check-in tables. `members` is the predefined staff list, read here and
      written elsewhere. */
  class CheckinStore {
    var days: seq<Day>
    var checkins: seq<StaffCheckin>
    var members: seq<StaffMember>

    /** Primary keys and the natural keys (event, date) and (event, day, reg no)
        are unique. */
    ghost predicate Valid()
      reads this
    {
      && UniqueKey(days, DayPk) && UniqueKey(days, DayNaturalKey)
      && UniqueKey(checkins, CheckinPk) && UniqueKey(checkins, CheckinNaturalKey)
    }

    constructor (members: seq<StaffMember>)
      ensures Valid()
      ensures days == [] && checkins == [] && this.members == members
    {
      days := [];
      checkins := [];
      this.members := members;
    }

    /** `createCheckinDay`: rejects a date text that is not YYYY-MM-DD; otherwise
        upserts the day on (event, date). */
    method CreateCheckinDay(
      eventKey: string, checkinDate: Option<string>, title: Option<string>, note: Option<string>,
      createdByStaffId: Option<string>, freshId: Uuid, now: Time)
      returns (r: Result<Day, CheckinError>)
      requires Valid()
      requires forall d :: d in days ==> d.id != freshId
      modifies this`days
      ensures Valid()
      ensures ValidateDate(checkinDate).Failure? ==> r == Failure(BadDate) && days == old(days)
      ensures ValidateDate(checkinDate).Success? ==>
                r.Success? && DayUpsert(old(days), days, eventKey, ValidateDate(checkinDate).value,
                                        Trim(title.GetOr("")), Trim(note.GetOr("")), createdByStaffId, freshId, now, r.value)
    {
      var v := ValidateDate(checkinDate);
      if v.Failure? {
        return Failure(v.error);
      }
      var day := UpsertDay(eventKey, v.value, Trim(title.GetOr("")), Trim(note.GetOr("")), createdByStaffId, freshId, now);
      r := Success(day);
    }

    /** The INSERT ... ON CONFLICT (event_key, checkin_date) of `createCheckinDay`:
        a blank title or note is NULL, and on a conflict COALESCE keeps the old
        one; the day is active either way and its creator is never overwritten. */
    method UpsertDay(
      eventKey: string, dateText: string, titleText: string, noteText: string,
      createdByStaffId: Option<string>, freshId: Uuid, now: Time)
      returns (day: Day)
      requires Valid()
      requires forall d :: d in days ==> d.id != freshId
      modifies this`days
      ensures Valid()
      ensures DayUpsert(old(days), days, eventKey, dateText, titleText, noteText, createdByStaffId, freshId, now, day)
    {
      var newTitle := NullIfEmpty(titleText);
      var newNote := NullIfEmpty(noteText);
      var existing := IndexOf(days, DayNaturalKey, (eventKey, dateText));
      if existing.Some? {
        var i := existing.value;
        day := days[i].(title := Coalesce(newTitle, days[i].title), note := Coalesce(newNote, days[i].note),
                        isActive := true, updatedAt := now);
        ReactivateIsUpsert(days, i, eventKey, dateText, titleText, noteText, createdByStaffId, freshId, now);
        days := days[i := day];
      } else {
        day := Day(freshId, eventKey, dateText, newTitle, newNote, true, OrNull(createdByStaffId), now, now);
        InsertIsUpsert(days, eventKey, dateText, titleText, noteText, createdByStaffId, freshId, now);
        days := days + [day];
      }
    }

    /** `setCheckinDayActive`: sets only the activation flag (and the update time)
        of the event's day with this id; null when there is none. */
    method SetCheckinDayActive(eventKey: string, dayId: Uuid, isActive: JsValue, now: Time)
      returns (r: Option<Day>)
      requires Valid()
      modifies this`days
      ensures Valid()
      ensures match IndexOf(old(days), DayEventId, (eventKey, dayId))
        case None => r == None && days == old(days)
        case Some(i) =>
          && r == Some(old(days)[i].(isActive := Truthy(isActive), updatedAt := now))
          && days == old(days)[i := r.value]
    {
      var found := IndexOf(days, DayEventId, (eventKey, dayId));
      if found.None? {
        return None;
      }
      var i := found.value;
      var day := days[i].(isActive := Truthy(isActive), updatedAt := now);
      ReplaceKeepsUnique(days, DayPk, i, day);
      ReplaceKeepsUnique(days, DayNaturalKey, i, day);
      days := days[i := day];
      r := Some(day);
    }

    /** `scanStaffCheckin`: a blank registration number is an error; otherwise the
        scan is upserted on (event, day, normalised reg no), so a repeat scan only
        restamps the time and the actor. */
    method ScanStaffCheckin(
      eventKey: string, dayId: Uuid, regNo: Option<string>,
      staffId: Option<string>, staffUsername: Option<string>, freshId: Uuid, now: Time)
      returns (r: Result<StaffCheckin, CheckinError>)
      requires Valid()
      requires forall c :: c in checkins ==> c.id != freshId
      modifies this`checkins
      ensures Valid()
      ensures NormalizeRegNo(regNo) == "" ==> r == Failure(RegNoRequired) && checkins == old(checkins)
      ensures NormalizeRegNo(regNo) != "" ==>
        r.Success? && ScanEffect(old(checkins), checkins, eventKey, dayId, NormalizeRegNo(regNo),
                                 staffId, staffUsername, freshId, now, r.value)
    {
      var normalized := NormalizeRegNo(regNo);
      if normalized == "" {
        return Failure(RegNoRequired);
      }
      var existing := IndexOf(checkins, CheckinNaturalKey, (eventKey, dayId, normalized));
      var item: StaffCheckin;
      if existing.Some? {
        var i := existing.value;
        item := checkins[i].(
          checkedInAt := now,
          checkedInByStaffId := OrNull(staffId),
          checkedInByUsername := OrNull(staffUsername));
        ReplaceKeepsUnique(checkins, CheckinPk, i, item);
        ReplaceKeepsUnique(checkins, CheckinNaturalKey, i, item);
        checkins := checkins[i := item];
      } else {
        item := StaffCheckin(freshId, eventKey, dayId, normalized, now, OrNull(staffId), OrNull(staffUsername), AppScan, now);
        AppendKeepsUnique(checkins, CheckinPk, item);
        AppendKeepsUnique(checkins, CheckinNaturalKey, item);
        checkins := checkins + [item];
      }
      r := Success(item);
    }
  }
}
