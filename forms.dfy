/**
  The validation done by the application's forms: sign-up, booking an appointment, and one
  row of the working-hours formset.
 */
module Forms {
  import opened Collections
  import opened Models

  // ---------------------------------------------------------------------------------------
  // Sign-up

  /** The cleaned data of the sign-up form; `isOwner` is absent when the field did not clean. */
  datatype SignUpData = SignUpData(
    username: string, firstName: string, lastName: string, email: string,
    isOwner: Option<bool>)

  /** `cleaned_data.get("is_owner", False)`. */
  function OwnerFlag(isOwner: Option<bool>): (r: bool)
    ensures r <==> isOwner == Some(true)
  {
    isOwner.GetOr(false)
  }

  class SignUpForm {
    const cleanedData: SignUpData

    constructor (cleanedData: SignUpData)
      ensures this.cleanedData == cleanedData
    {
      this.cleanedData := cleanedData;
    }

    /** Builds the user from the cleaned data and sets its owner flag from the checkbox. */
    method Save() returns (user: User)
      ensures fresh(user)
      ensures user.username == cleanedData.username && user.email == cleanedData.email
      ensures user.firstName == cleanedData.firstName
      ensures user.lastName == cleanedData.lastName
      ensures user.isOwner == OwnerFlag(cleanedData.isOwner) && !user.isClient
    {
      user := new User(cleanedData.username, cleanedData.firstName, cleanedData.lastName,
                       cleanedData.email);
      user.isOwner := OwnerFlag(cleanedData.isOwner);
    }
  }

  // ---------------------------------------------------------------------------------------
  // Booking an appointment

  /** The services a booking form offers: those of the given salon, none without a salon. */
  function SelectableServices(salon: Option<SalonId>, services: seq<Service>): (r: seq<Service>)
    ensures forall s :: s in r <==> salon.Some? && s in services && s.salon == salon.value
    ensures IsSubsequence(r, services)
  {
    match salon
    case None => []
    case Some(h) =>
      var ofSalon := (s: Service) => s.salon == h;
      FilterIsSubsequence(ofSalon, services);
      Filter(ofSalon, services)
  }

  /** The booking form: its service choices are restricted when it is created. */
  class AppointmentForm {
    var serviceChoices: seq<Service>

    constructor (salon: Option<SalonId>, services: seq<Service>)
      ensures serviceChoices == SelectableServices(salon, services)
    {
      serviceChoices := SelectableServices(salon, services);
    }
  }

  datatype BookingField = ServiceField | StartTimeField
  datatype BookingCode = Required | InvalidChoice | PastDate
  datatype BookingError = BookingError(field: BookingField, code: BookingCode)

  /** What a booking request submits: a service id and a start datetime, each optional. */
  datatype BookingInput = BookingInput(serviceId: Option<ServiceId>, startTime: Option<int>)

  /** The cleaned booking of a valid form. */
  datatype CleanBooking = CleanBooking(service: Service, startTime: int)

  /**
    `clean_start_time`: a start at or before `now` is refused with `past_date`; a later start
    and an absent one are passed back unchanged.
   */
  function CleanStartTime(startTime: Option<int>, now: int): (r: Result<Option<int>, BookingCode>)
    ensures r.Failure? <==> startTime.Some? && startTime.value <= now
    ensures r.Failure? ==> r.error == PastDate
    ensures r.Success? ==> r.value == startTime
  {
    if startTime.Some? && startTime.value <= now then Failure(PastDate) else Success(startTime)
  }

  /** The offered service with primary key `id`, if any. */
  function ChosenService(choices: seq<Service>, id: ServiceId): (r: Option<Service>)
    ensures r.Some? ==> r.value in choices && r.value.id == id
    ensures r.None? ==> forall s :: s in choices ==> s.id != id
  {
    if choices == [] then None
    else if choices[0].id == id then Some(choices[0])
    else ChosenService(choices[1..], id)
  }

  function ServiceErrors(choices: seq<Service>, serviceId: Option<ServiceId>): seq<BookingError>
  {
    match serviceId
    case None => [BookingError(ServiceField, Required)]
    case Some(id) =>
      if ChosenService(choices, id).None? then [BookingError(ServiceField, InvalidChoice)] else []
  }

  function StartTimeErrors(startTime: Option<int>, now: int): seq<BookingError>
  {
    match startTime
    case None => [BookingError(StartTimeField, Required)]
    case Some(_) =>
      if CleanStartTime(startTime, now).Failure? then [BookingError(StartTimeField, PastDate)]
      else []
  }

  /**
    Whether the booking form is valid. Both fields are required; the service must be one of
    the offered choices and the start must be strictly after `now`.
   */
  function ValidateBooking(choices: seq<Service>, input: BookingInput, now: int)
    : (r: Result<CleanBooking, seq<BookingError>>)
    ensures r.Success? <==>
            && input.serviceId.Some?
            && (exists s :: s in choices && s.id == input.serviceId.value)
            && input.startTime.Some? && input.startTime.value > now
    ensures r.Success? ==>
            && r.value.service in choices
            && Some(r.value.service.id) == input.serviceId
            && Some(r.value.startTime) == input.startTime
    ensures r.Failure? ==>
            && |r.error| > 0
            && (BookingError(StartTimeField, PastDate) in r.error <==>
                input.startTime.Some? && input.startTime.value <= now)
            && (BookingError(ServiceField, InvalidChoice) in r.error <==>
                input.serviceId.Some? && forall s :: s in choices ==> s.id != input.serviceId.value)
  {
    var errors := ServiceErrors(choices, input.serviceId) + StartTimeErrors(input.startTime, now);
    if errors == [] then
      Success(CleanBooking(ChosenService(choices, input.serviceId.value).value,
                           input.startTime.value))
    else Failure(errors)
  }

  // ---------------------------------------------------------------------------------------
  // One row of the working-hours formset

  datatype HoursField = DayOfWeek | StartTime | EndTime
  datatype HoursErrorKind = EndTimeRequired | StartTimeRequired | OverlapsExisting

  /** An error of the form; `field == None` is a form-level (non-field) error. */
  datatype FormError = FormError(field: Option<HoursField>, kind: HoursErrorKind)

  /** The cleaned data of one row; a field that did not clean is absent. */
  datatype HoursRow = HoursRow(
    delete: bool, day: Option<nat>, startTime: Option<TimeOfDay>, endTime: Option<TimeOfDay>)

  /** The row with `field` removed, as adding an error on that field does. */
  function WithoutField(row: HoursRow, field: Option<HoursField>): HoursRow
  {
    match field
    case None => row
    case Some(DayOfWeek) => row.(day := None)
    case Some(StartTime) => row.(startTime := None)
    case Some(EndTime) => row.(endTime := None)
  }

  /** Half-open intervals `[s1, e1)` and `[s2, e2)` intersect. */
  predicate Overlaps(s1: int, e1: int, s2: int, e2: int)
  {
    s1 < e2 && e1 > s2
  }

  /** Minute `t` lies in the half-open range `[s, e)`. */
  predicate InRange(t: int, s: int, e: int)
  {
    s <= t < e
  }

  /**
    Two ranges that share a minute overlap; for non-empty ranges the converse holds too. An
    empty or inverted range can still pass the test, since only the cross bounds are compared.
   */
  lemma {:induction false} OverlapsVersusCommonMinute(s1: int, e1: int, s2: int, e2: int)
    ensures (exists t :: InRange(t, s1, e1) && InRange(t, s2, e2)) ==> Overlaps(s1, e1, s2, e2)
    ensures s1 < e1 && s2 < e2 ==>
            (Overlaps(s1, e1, s2, e2) <==> exists t :: InRange(t, s1, e1) && InRange(t, s2, e2))
    ensures Overlaps(5, 3, 0, 10) && !exists t :: InRange(t, 5, 3)
  {
    if s1 < e1 && s2 < e2 && Overlaps(s1, e1, s2, e2) {
      var t := if s1 < s2 then s2 else s1;
      assert InRange(t, s1, e1) && InRange(t, s2, e2);
    }
  }

  /** The primary key excluded from the query: the instance's, when it is truthy. */
  function ExcludedPk(pk: Option<nat>): (r: Option<nat>)
    ensures r.Some? <==> pk.Some? && pk.value != 0
    ensures r.Some? ==> r == pk
  {
    if pk.Some? && pk.value != 0 then pk else None
  }

  /** A stored range the query returns: same salon and weekday, not the excluded row. */
  predicate Competes(w: WorkingHours, salon: Option<SalonId>, day: nat, excluded: Option<nat>)
  {
    salon == Some(w.salon) && w.day == day && excluded != Some(w.id)
  }

  predicate Clashes(w: WorkingHours, salon: Option<SalonId>, day: nat, excluded: Option<nat>,
                    startTime: int, endTime: int)
  {
    Competes(w, salon, day, excluded) && Overlaps(startTime, endTime, w.startTime, w.endTime)
  }

  predicate HasClash(stored: seq<WorkingHours>, salon: Option<SalonId>, day: nat,
                     excluded: Option<nat>, startTime: int, endTime: int)
  {
    exists w :: w in stored && Clashes(w, salon, day, excluded, startTime, endTime)
  }

  /** The overlap query runs when start, end and weekday are all truthy (weekday 0 is not). */
  predicate ChecksOverlap(row: HoursRow)
  {
    row.startTime.Some? && row.endTime.Some? && row.day.Some? && row.day.value != 0
  }

  /**
    The errors that cleaning a row adds. A deleted row gets none. A half-filled pair gets an
    error on its missing field only. A complete row with a truthy weekday gets one form-level
    error exactly when a stored range of the same salon and weekday, other than the row's own,
    overlaps it.
   */
  function CleanErrors(row: HoursRow, salon: Option<SalonId>, pk: Option<nat>,
                       stored: seq<WorkingHours>): (r: seq<FormError>)
    ensures |r| <= 1
    ensures row.delete ==> r == []
    ensures FormError(Some(EndTime), EndTimeRequired) in r <==>
            !row.delete && row.startTime.Some? && row.endTime.None?
    ensures FormError(Some(StartTime), StartTimeRequired) in r <==>
            !row.delete && row.startTime.None? && row.endTime.Some?
    ensures FormError(None, OverlapsExisting) in r <==>
            && !row.delete && ChecksOverlap(row)
            && HasClash(stored, salon, row.day.value, ExcludedPk(pk),
                        row.startTime.value, row.endTime.value)
    ensures forall e :: e in r ==>
              e in [FormError(Some(EndTime), EndTimeRequired),
                    FormError(Some(StartTime), StartTimeRequired),
                    FormError(None, OverlapsExisting)]
  {
    if row.delete then []
    else if row.startTime.Some? && row.endTime.None? then [FormError(Some(EndTime), EndTimeRequired)]
    else if row.endTime.Some? && row.startTime.None? then
      [FormError(Some(StartTime), StartTimeRequired)]
    else if ChecksOverlap(row) && HasClash(stored, salon, row.day.value, ExcludedPk(pk),
                                           row.startTime.value, row.endTime.value) then
      [FormError(None, OverlapsExisting)]
    else []
  }

  /**
    The loop over the queried ranges: stops at the first one that overlaps `[startTime,
    endTime)`.
   */
  method FindClash(stored: seq<WorkingHours>, salon: Option<SalonId>, day: nat,
                   excluded: Option<nat>, startTime: int, endTime: int)
    returns (found: bool)
    ensures found <==> HasClash(stored, salon, day, excluded, startTime, endTime)
  {
    var i := 0;
    while i < |stored|
      invariant 0 <= i <= |stored|
      invariant forall k :: 0 <= k < i ==> !Clashes(stored[k], salon, day, excluded, startTime, endTime)
    {
      var schedule := stored[i];
      if Competes(schedule, salon, day, excluded) &&
         startTime < schedule.endTime && endTime > schedule.startTime {
        assert schedule in stored && Clashes(schedule, salon, day, excluded, startTime, endTime);
        return true;
      }
      i := i + 1;
    }
    return false;
  }

  /** One working-hours form of the formset. */
  class WorkingHoursForm {
    var cleanedData: HoursRow
    var errors: seq<FormError>
    /** The salon of the form's instance, when it has one. */
    const salon: Option<SalonId>
    /** The primary key of the form's instance (absent for a new row). */
    const pk: Option<nat>

    constructor (cleanedData: HoursRow, fieldErrors: seq<FormError>, salon: Option<SalonId>,
                 pk: Option<nat>)
      ensures this.cleanedData == cleanedData && errors == fieldErrors
      ensures this.salon == salon && this.pk == pk
    {
      this.cleanedData := cleanedData;
      errors := fieldErrors;
      this.salon := salon;
      this.pk := pk;
    }

    /** Records an error and drops the field it is about from the cleaned data. */
    method AddError(field: Option<HoursField>, kind: HoursErrorKind)
      modifies this
      ensures errors == old(errors) + [FormError(field, kind)]
      ensures cleanedData == WithoutField(old(cleanedData), field)
    {
      errors := errors + [FormError(field, kind)];
      cleanedData := WithoutField(cleanedData, field);
    }

    /**
      The form's `clean`. A raised overlap error ends up as a form-level error. The cleaned
      data keep their values: only an absent field is ever dropped.
     */
    method Clean(stored: seq<WorkingHours>)
      modifies this
      ensures cleanedData == old(cleanedData)
      ensures errors == old(errors) + CleanErrors(old(cleanedData), salon, pk, stored)
    {
      if cleanedData.delete {
        return;
      }
      var startTime, endTime := cleanedData.startTime, cleanedData.endTime;
      if startTime.Some? && endTime.None? {
        AddError(Some(EndTime), EndTimeRequired);
      } else if endTime.Some? && startTime.None? {
        AddError(Some(StartTime), StartTimeRequired);
      }
      startTime, endTime := cleanedData.startTime, cleanedData.endTime;
      var day := cleanedData.day;
      if startTime.Some? && endTime.Some? && day.Some? && day.value != 0 {
        var clash := FindClash(stored, salon, day.value, ExcludedPk(pk),
                               startTime.value, endTime.value);
        if clash {
          AddError(None, OverlapsExisting);
        }
      }
    }
  }

  /** Overlap does not depend on the order of the two ranges. */
  lemma OverlapsSymmetric(s1: int, e1: int, s2: int, e2: int)
    ensures Overlaps(s1, e1, s2, e2) == Overlaps(s2, e2, s1, e1)
  {
  }

  /** Back-to-back ranges `[a, b)` and `[b, c)` do not overlap. */
  lemma TouchingRangesDoNotOverlap(a: int, b: int, c: int)
    ensures !Overlaps(a, b, b, c) && !Overlaps(b, c, a, b)
  {
  }

  /** A non-empty range overlaps itself. */
  lemma NonEmptyRangeOverlapsItself(s: int, e: int)
    requires s < e
    ensures Overlaps(s, e, s, e)
  {
  }

  /**
    For an instance with a truthy primary key, its own stored version never affects the
    outcome.
   */
  lemma {:induction false} OwnStoredVersionIgnored(row: HoursRow, salon: Option<SalonId>, pk: nat,
                                                   stored: seq<WorkingHours>)
    requires pk != 0
    ensures CleanErrors(row, salon, Some(pk), stored) ==
            CleanErrors(row, salon, Some(pk), Filter((w: WorkingHours) => w.id != pk, stored))
  {
    var others := Filter((w: WorkingHours) => w.id != pk, stored);
    if ChecksOverlap(row) {
      var day, s, e := row.day.value, row.startTime.value, row.endTime.value;
      if HasClash(stored, salon, day, Some(pk), s, e) {
        var w :| w in stored && Clashes(w, salon, day, Some(pk), s, e);
        assert w in others;
      }
    }
  }

  /**
    Nothing requires a range to start before it ends. An inverted row gets no error of its
    own: it is accepted when nothing is stored, and otherwise rejected only for overlapping a
    stored range of the same salon and weekday that starts before its end and ends after its
    start, that is, one that spans the whole gap between them.
   */
  lemma {:induction false} InvertedRangeAccepted(row: HoursRow, salon: Option<SalonId>,
                                                 pk: Option<nat>, stored: seq<WorkingHours>)
    requires !row.delete && row.startTime.Some? && row.endTime.Some?
    requires row.startTime.value >= row.endTime.value
    ensures CleanErrors(row, salon, pk, []) == []
    ensures forall e :: e in CleanErrors(row, salon, pk, stored) ==>
              e == FormError(None, OverlapsExisting)
    ensures FormError(None, OverlapsExisting) in CleanErrors(row, salon, pk, stored) ==>
              exists w :: w in stored && Competes(w, salon, row.day.value, ExcludedPk(pk)) &&
                          w.startTime < row.endTime.value && row.startTime.value < w.endTime
  {
    var r := CleanErrors(row, salon, pk, stored);
    if FormError(None, OverlapsExisting) in r {
      var w :| w in stored && Clashes(w, salon, row.day.value, ExcludedPk(pk),
                                      row.startTime.value, row.endTime.value);
      assert w.startTime < row.endTime.value <= row.startTime.value < w.endTime;
    }
  }

  /** The stored form of a complete row, under primary key `id`. */
  function AsStored(row: HoursRow, salon: SalonId, id: nat): (w: WorkingHours)
    requires ChecksOverlap(row)
    ensures w.id == id && w.salon == salon && w.day == row.day.value
    ensures w.startTime == row.startTime.value && w.endTime == row.endTime.value
  {
    WorkingHours(id, salon, row.day.value, row.startTime.value, row.endTime.value)
  }

  /**
    Rows of one submission are compared with stored ranges only, never with each other. Two
    overlapping rows submitted together pass when nothing is stored, although the first is
    rejected once the second is stored.
   */
  lemma {:induction false} SubmittedRowsNotComparedWithEachOther(
    row1: HoursRow, row2: HoursRow, salon: SalonId, pk1: Option<nat>, id2: nat)
    requires !row1.delete && ChecksOverlap(row1) && ChecksOverlap(row2) && row1.day == row2.day
    requires Overlaps(row1.startTime.value, row1.endTime.value,
                      row2.startTime.value, row2.endTime.value)
    requires ExcludedPk(pk1) != Some(id2)
    ensures FormError(None, OverlapsExisting) !in CleanErrors(row1, Some(salon), pk1, [])
    ensures FormError(None, OverlapsExisting) in
            CleanErrors(row1, Some(salon), pk1, [AsStored(row2, salon, id2)])
  {
    var w := AsStored(row2, salon, id2);
    assert w in [w] && Clashes(w, Some(salon), row1.day.value, ExcludedPk(pk1),
                               row1.startTime.value, row1.endTime.value);
  }

  /** A weekday value of 0 is falsy, so such a row is never checked for overlap. */
  lemma DayZeroSkipsOverlapCheck(row: HoursRow, salon: Option<SalonId>, pk: Option<nat>,
                                 stored: seq<WorkingHours>)
    requires row.day == Some(0)
    ensures FormError(None, OverlapsExisting) !in CleanErrors(row, salon, pk, stored)
  {
  }

  /** A range that only touches a stored one of the same salon and weekday is accepted. */
  lemma TouchingStoredRangeAccepted(row: HoursRow, salon: SalonId, pk: Option<nat>,
                                    w: WorkingHours)
    requires !row.delete && ChecksOverlap(row) && row.day.value == w.day && w.salon == salon
    requires row.startTime.value >= w.endTime || row.endTime.value <= w.startTime
    ensures CleanErrors(row, Some(salon), pk, [w]) == []
  {
  }
}
