/**
  What the views compute, over plain sequences standing for the querysets they read: the
  home page lists, the booking POST, a client's appointment list, the owner's monthly
  summary and the calendar feed of a salon.
 */
module Views {
  import opened Collections
  import opened Models
  import opened Forms
  import opened Utils

  // ---------------------------------------------------------------------------------------
  // Home page

  predicate IsComplete(h: Hairdresser)
  {
    h.complete
  }

  predicate HasImages(h: Hairdresser)
  {
    h.images > 0
  }

  /** The listed salons: the complete ones, in queryset order. */
  function HomeSalons(salons: seq<Hairdresser>): (r: seq<Hairdresser>)
    ensures forall h :: h in r <==> h in salons && h.complete
    ensures IsSubsequence(r, salons)
  {
    FilterIsSubsequence(IsComplete, salons);
    Filter(IsComplete, salons)
  }

  /** The featured salons: the first five of the listed salons that have images. */
  function FeaturedSalons(home: seq<Hairdresser>): (r: seq<Hairdresser>)
    ensures |r| <= 5
    ensures r <= Filter(HasImages, home)
    ensures |Filter(HasImages, home)| >= 5 ==> |r| == 5
    ensures |Filter(HasImages, home)| < 5 ==> r == Filter(HasImages, home)
    ensures IsSubsequence(r, home)
  {
    var withImages := Filter(HasImages, home);
    var r := if |withImages| <= 5 then withImages else withImages[..5];
    PrefixIsSubsequence(r, withImages);
    FilterIsSubsequence(HasImages, home);
    SubsequenceTransitive(r, withImages, home);
    r
  }

  /** The featured list is drawn from the home list: complete salons with images, in order. */
  lemma {:induction false} FeaturedAreListed(salons: seq<Hairdresser>)
    ensures IsSubsequence(FeaturedSalons(HomeSalons(salons)), HomeSalons(salons))
    ensures IsSubsequence(FeaturedSalons(HomeSalons(salons)), salons)
    ensures forall h :: h in FeaturedSalons(HomeSalons(salons)) ==> h.complete && h.images > 0
  {
    var home := HomeSalons(salons);
    var featured := FeaturedSalons(home);
    SubsequenceTransitive(featured, home, salons);
    forall h | h in featured
      ensures h.complete && h.images > 0
    {
      assert h in Filter(HasImages, home);
    }
  }

  datatype HomeContext = HomeContext(
    hairdressers: seq<Hairdresser>, featured: seq<Hairdresser>, fallback: Coordinates)

  /**
    The home page context; `lookup` is what the geolocation call would return for the
    client's address.
   */
  function HomeContextData(salons: seq<Hairdresser>, forwardedFor: Option<string>,
                           remoteAddr: Option<string>, lookup: Coordinates): (r: HomeContext)
    ensures r.hairdressers == HomeSalons(salons)
    ensures r.featured == FeaturedSalons(r.hairdressers)
    ensures IsLocalAddress(GetIp(forwardedFor, remoteAddr)) ==> r.fallback == DefaultCoordinates
    ensures !IsLocalAddress(GetIp(forwardedFor, remoteAddr)) ==> r.fallback == lookup
  {
    var home := HomeSalons(salons);
    HomeContext(home, FeaturedSalons(home), LocationFromIp(GetIp(forwardedFor, remoteAddr), lookup))
  }

  // ---------------------------------------------------------------------------------------
  // Booking from a salon's page

  datatype PostResponse =
    | RedirectToLogin
    | RedirectToMyAppointments
    | RenderWithErrors(errors: seq<BookingError>)
    | ServerError

  /**
    `booked` is the saved appointment of a valid booking form: the requester's, for the
    chosen service of this salon, starting after `now`, pending, with its end computed.
   */
  predicate IsBooking(booked: Appointment, user: UserId, salon: SalonId, services: seq<Service>,
                      v: Result<CleanBooking, seq<BookingError>>, now: int)
    reads booked
  {
    && v.Success?
    && booked.service == v.value.service
    && booked.service in services && booked.service.salon == salon
    && booked.startTime == v.value.startTime && booked.startTime > now
    && booked.endTime.Some?
    && booked.Record() == AppointmentRecord(Some(user), booked.service, booked.startTime,
                                            EndTimeFor(booked.startTime, booked.service),
                                            Pending)
  }

  /**
    The part of a logged-in booking POST that both versions below share: the form is built
    for this salon and validated; a valid one is saved as an appointment of the requester.
   */
  method Book(user: UserId, salon: SalonId, services: seq<Service>, input: BookingInput, now: int)
    returns (v: Result<CleanBooking, seq<BookingError>>, booked: Appointment?)
    ensures v == ValidateBooking(SelectableServices(Some(salon), services), input, now)
    ensures v.Failure? ==> booked == null
    ensures v.Success? ==> booked != null && fresh(booked) &&
                           IsBooking(booked, user, salon, services, v, now)
  {
    var form := new AppointmentForm(Some(salon), services);
    v := ValidateBooking(form.serviceChoices, input, now);
    if v.Failure? {
      return v, null;
    }
    booked := new Appointment(v.value.service, v.value.startTime);
    booked.client := Some(user);
    booked.Save();
  }

  /**
    A booking POST as written. Without a logged-in user nothing is created. A valid form
    yields a saved appointment of the requester. For an invalid form the view re-renders
    through its detail context, which reads the view's `object`; `post` never assigns it, so
    the request fails and the form's errors are never shown.
   */
  method HairdresserDetailPost(authenticated: bool, user: UserId, salon: SalonId,
                               services: seq<Service>, input: BookingInput, now: int)
    returns (response: PostResponse, booked: Appointment?)
    ensures !authenticated ==> response == RedirectToLogin && booked == null
    ensures authenticated ==>
            var v := ValidateBooking(SelectableServices(Some(salon), services), input, now);
            && (v.Failure? ==> response == ServerError && booked == null)
            && (v.Success? ==>
                  && response == RedirectToMyAppointments
                  && booked != null && fresh(booked)
                  && IsBooking(booked, user, salon, services, v, now))
  {
    if !authenticated {
      return RedirectToLogin, null;
    }
    var v;
    v, booked := Book(user, salon, services, input, now);
    if v.Failure? {
      return ServerError, null;
    }
    return RedirectToMyAppointments, booked;
  }

  /**
    A booking POST as evidently intended: the salon is made the view's object before an
    invalid form is re-rendered, so the page comes back with the form's errors.
   */
  method HairdresserDetailPostCorrected(authenticated: bool, user: UserId, salon: SalonId,
                                        services: seq<Service>, input: BookingInput, now: int)
    returns (response: PostResponse, booked: Appointment?)
    ensures !authenticated ==> response == RedirectToLogin && booked == null
    ensures authenticated ==>
            var v := ValidateBooking(SelectableServices(Some(salon), services), input, now);
            && (v.Failure? ==> response == RenderWithErrors(v.error) && booked == null)
            && (v.Success? ==>
                  && response == RedirectToMyAppointments
                  && booked != null && fresh(booked)
                  && IsBooking(booked, user, salon, services, v, now))
  {
    if !authenticated {
      return RedirectToLogin, null;
    }
    var v;
    v, booked := Book(user, salon, services, input, now);
    if v.Failure? {
      return RenderWithErrors(v.error), null;
    }
    return RedirectToMyAppointments, booked;
  }

  /**
    A logged-in booking whose start is `now` fails validation with `past_date`, whatever the
    service; the view as written then answers with a server error instead of that message.
   */
  lemma {:induction false} PastStartFailsValidation(services: seq<Service>, salon: SalonId,
                                                    serviceId: Option<ServiceId>, now: int)
    ensures var v := ValidateBooking(SelectableServices(Some(salon), services),
                                     BookingInput(serviceId, Some(now)), now);
            v.Failure? && BookingError(StartTimeField, PastDate) in v.error
  {
  }

  // ---------------------------------------------------------------------------------------
  // A client's appointments, latest first

  predicate SortedByStartDesc(s: seq<AppointmentRecord>)
  {
    forall i, j :: 0 <= i < j < |s| ==> s[i].startTime >= s[j].startTime
  }

  lemma {:induction false} ConsSorted(h: AppointmentRecord, t: seq<AppointmentRecord>)
    requires SortedByStartDesc(t)
    requires forall x :: x in t ==> x.startTime <= h.startTime
    ensures SortedByStartDesc([h] + t)
  {
    var r := [h] + t;
    forall i, j | 0 <= i < j < |r|
      ensures r[i].startTime >= r[j].startTime
    {
      assert r[j] == t[j - 1];
      if i > 0 {
        assert r[i] == t[i - 1];
      }
    }
  }

  function InsertByStart(a: AppointmentRecord, s: seq<AppointmentRecord>)
    : (r: seq<AppointmentRecord>)
    requires SortedByStartDesc(s)
    ensures SortedByStartDesc(r)
    ensures multiset(r) == multiset(s) + multiset{a}
    ensures forall x :: x in r ==> x in s || x == a
  {
    if s == [] then [a]
    else if a.startTime >= s[0].startTime then
      ConsSorted(a, s);
      [a] + s
    else
      var rest := InsertByStart(a, s[1..]);
      InsertBehindHead(a, s, rest);
      [s[0]] + rest
  }

  /** Putting the head of `s` in front of `a` inserted into the tail keeps the order. */
  lemma {:induction false} InsertBehindHead(
    a: AppointmentRecord, s: seq<AppointmentRecord>, rest: seq<AppointmentRecord>)
    requires s != [] && SortedByStartDesc(s) && a.startTime < s[0].startTime
    requires SortedByStartDesc(rest)
    requires multiset(rest) == multiset(s[1..]) + multiset{a}
    requires forall x :: x in rest ==> x in s[1..] || x == a
    ensures SortedByStartDesc([s[0]] + rest)
    ensures multiset([s[0]] + rest) == multiset(s) + multiset{a}
    ensures forall x :: x in [s[0]] + rest ==> x in s || x == a
  {
    forall x | x in rest
      ensures x.startTime <= s[0].startTime
    {
      if x != a {
        var k :| 0 <= k < |s[1..]| && s[1..][k] == x;
        assert s[k + 1] == x;
      }
    }
    ConsSorted(s[0], rest);
    assert s == [s[0]] + s[1..];
  }

  function SortByStartDesc(s: seq<AppointmentRecord>): (r: seq<AppointmentRecord>)
    ensures SortedByStartDesc(r)
    ensures multiset(r) == multiset(s)
  {
    if s == [] then []
    else
      assert s == [s[0]] + s[1..];
      InsertByStart(s[0], SortByStartDesc(s[1..]))
  }

  function OfClient(user: UserId): AppointmentRecord -> bool
  {
    (a: AppointmentRecord) => a.client == Some(user)
  }

  /**
    "My appointments": every appointment of the requesting client and no other, each as
    often as stored, ordered by start time, latest first.
   */
  function ClientAppointments(apps: seq<AppointmentRecord>, user: UserId)
    : (r: seq<AppointmentRecord>)
    ensures multiset(r) == multiset(Filter(OfClient(user), apps))
    ensures forall a :: a in r <==> a in apps && a.client == Some(user)
    ensures SortedByStartDesc(r)
  {
    var mine := Filter(OfClient(user), apps);
    var r := SortByStartDesc(mine);
    assert forall a :: a in r <==> a in mine by {
      forall a ensures a in r <==> a in mine {
        assert a in r <==> multiset(r)[a] > 0;
        assert a in mine <==> multiset(mine)[a] > 0;
      }
    }
    r
  }

  // ---------------------------------------------------------------------------------------
  // Owner's monthly summary

  /** A completed appointment of `salon` starting on or after `monthStart`. */
  predicate CountsThisMonth(a: AppointmentRecord, salon: SalonId, monthStart: int)
  {
    a.service.salon == salon && a.status == Completed && a.startTime >= monthStart
  }

  function ThisMonth(salon: SalonId, monthStart: int): AppointmentRecord -> bool
  {
    (a: AppointmentRecord) => CountsThisMonth(a, salon, monthStart)
  }

  /**
    The appointments the summary counts: the salon's completed ones starting on or after the
    first moment of the month (later months included), in queryset order.
   */
  function CompletedThisMonth(apps: seq<AppointmentRecord>, salon: SalonId, monthStart: int)
    : (r: seq<AppointmentRecord>)
    ensures forall a :: a in r <==> a in apps && CountsThisMonth(a, salon, monthStart)
    ensures IsSubsequence(r, apps)
  {
    FilterIsSubsequence(ThisMonth(salon, monthStart), apps);
    Filter(ThisMonth(salon, monthStart), apps)
  }

  /** The sum of the service prices, in cents; 0 for no appointments. */
  function Revenue(apps: seq<AppointmentRecord>): (r: int)
    ensures apps == [] ==> r == 0
    ensures (forall k :: 0 <= k < |apps| ==> apps[k].service.priceCents >= 0) ==> r >= 0
    ensures (forall k :: 0 <= k < |apps| ==> apps[k].service.priceCents <= 0) ==> r <= 0
  {
    if apps == [] then 0 else apps[0].service.priceCents + Revenue(apps[1..])
  }

  lemma {:induction false} RevenueAppend(a: seq<AppointmentRecord>, b: seq<AppointmentRecord>)
    ensures Revenue(a + b) == Revenue(a) + Revenue(b)
  {
    if a == [] {
      assert a + b == b;
    } else {
      assert (a + b)[1..] == a[1..] + b;
      RevenueAppend(a[1..], b);
    }
  }

  function ServiceNames(apps: seq<AppointmentRecord>): (r: seq<string>)
    ensures |r| == |apps|
    ensures forall i :: 0 <= i < |apps| ==> r[i] == apps[i].service.name
  {
    seq(|apps|, i requires 0 <= i < |apps| => apps[i].service.name)
  }

  /** A name of `pool` that occurs in `names` at least as often as every name of `pool`. */
  function MostCommon(names: seq<string>, pool: seq<string>): (r: string)
    requires |pool| > 0
    ensures r in pool
    ensures forall n :: n in pool ==> multiset(names)[n] <= multiset(names)[r]
  {
    if |pool| == 1 then pool[0]
    else
      var best := MostCommon(names, pool[1..]);
      if multiset(names)[pool[0]] >= multiset(names)[best] then pool[0] else best
  }

  /** "N/A" when there are no names, otherwise a name with the largest number of occurrences. */
  function TopService(names: seq<string>): (r: string)
    ensures names == [] ==> r == "N/A"
    ensures names != [] ==>
            r in names && forall n :: n in names ==> multiset(names)[n] <= multiset(names)[r]
  {
    if names == [] then "N/A" else MostCommon(names, names)
  }

  datatype DashboardSummary = DashboardSummary(
    monthlyRevenue: int, monthlyAppointments: nat, topService: string)

  /** The summary cards of the owner's dashboard. */
  function OwnerDashboard(apps: seq<AppointmentRecord>, salon: SalonId, monthStart: int)
    : (r: DashboardSummary)
    ensures r.monthlyAppointments == |CompletedThisMonth(apps, salon, monthStart)|
    ensures CompletedThisMonth(apps, salon, monthStart) == [] ==>
            r == DashboardSummary(0, 0, "N/A")
    ensures CompletedThisMonth(apps, salon, monthStart) != [] ==>
            && (exists a :: a in apps && CountsThisMonth(a, salon, monthStart) &&
                            a.service.name == r.topService)
            && var names := multiset(ServiceNames(CompletedThisMonth(apps, salon, monthStart)));
               forall a :: a in apps && CountsThisMonth(a, salon, monthStart) ==>
                             names[a.service.name] <= names[r.topService]
  {
    var completed := CompletedThisMonth(apps, salon, monthStart);
    var names := ServiceNames(completed);
    var top := TopService(names);
    assert completed != [] ==> exists i :: 0 <= i < |completed| && names[i] == top;
    assert forall a :: a in completed ==> a.service.name in names by {
      forall a | a in completed ensures a.service.name in names {
        var i :| 0 <= i < |completed| && completed[i] == a;
        assert names[i] == a.service.name;
      }
    }
    DashboardSummary(Revenue(completed), |completed|, top)
  }

  /**
    An appointment of another salon, not completed, or starting before the first moment of
    the month changes nothing.
   */
  lemma {:induction false} DashboardIgnoresOthers(apps: seq<AppointmentRecord>,
                                                  a: AppointmentRecord, salon: SalonId,
                                                  monthStart: int)
    requires !CountsThisMonth(a, salon, monthStart)
    ensures OwnerDashboard(apps + [a], salon, monthStart) == OwnerDashboard(apps, salon, monthStart)
  {
    FilterAppend(ThisMonth(salon, monthStart), apps, [a]);
    assert Filter(ThisMonth(salon, monthStart), [a]) == [];
    assert CompletedThisMonth(apps + [a], salon, monthStart) ==
           CompletedThisMonth(apps, salon, monthStart);
  }

  /**
    A completed appointment of the salon starting on or after the first moment of the month
    adds its price and one to the count.
   */
  lemma {:induction false} DashboardCountsCompleted(apps: seq<AppointmentRecord>,
                                                    a: AppointmentRecord, salon: SalonId,
                                                    monthStart: int)
    requires CountsThisMonth(a, salon, monthStart)
    ensures OwnerDashboard(apps + [a], salon, monthStart).monthlyRevenue ==
            OwnerDashboard(apps, salon, monthStart).monthlyRevenue + a.service.priceCents
    ensures OwnerDashboard(apps + [a], salon, monthStart).monthlyAppointments ==
            OwnerDashboard(apps, salon, monthStart).monthlyAppointments + 1
  {
    var before := CompletedThisMonth(apps, salon, monthStart);
    FilterAppend(ThisMonth(salon, monthStart), apps, [a]);
    assert Filter(ThisMonth(salon, monthStart), [a]) == [a];
    RevenueAppend(before, [a]);
    assert Revenue([a]) == a.service.priceCents;
  }

  // ---------------------------------------------------------------------------------------
  // Calendar feed

  datatype CalendarEvent = CalendarEvent(title: string, startTime: int, endTime: int, color: string)

  const EventTitle: string := "Reservado"
  const EventColor: string := "#dc3545"

  function OfSalon(salon: SalonId): AppointmentRecord -> bool
  {
    (a: AppointmentRecord) => a.service.salon == salon
  }

  /** The appointments of one salon, whatever their status, in queryset order. */
  function SalonAppointments(apps: seq<AppointmentRecord>, salon: SalonId)
    : (r: seq<AppointmentRecord>)
    ensures forall a :: a in r <==> a in apps && a.service.salon == salon
    ensures IsSubsequence(r, apps)
  {
    FilterIsSubsequence(OfSalon(salon), apps);
    Filter(OfSalon(salon), apps)
  }

  /**
    The calendar events of a salon: one per appointment, in order, with its start and end,
    a fixed title that hides the client, and a fixed colour.
   */
  method AppointmentEventsData(apps: seq<AppointmentRecord>, salon: SalonId)
    returns (events: seq<CalendarEvent>)
    ensures |events| == |SalonAppointments(apps, salon)|
    ensures forall i :: 0 <= i < |events| ==>
              var a := SalonAppointments(apps, salon)[i];
              events[i] == CalendarEvent(EventTitle, a.startTime, a.endTime, EventColor)
  {
    var appointments := SalonAppointments(apps, salon);
    events := [];
    for i := 0 to |appointments|
      invariant |events| == i
      invariant forall k :: 0 <= k < i ==>
                  events[k] == CalendarEvent(EventTitle, appointments[k].startTime,
                                             appointments[k].endTime, EventColor)
    {
      var app := appointments[i];
      events := events + [CalendarEvent(EventTitle, app.startTime, app.endTime, EventColor)];
    }
  }
}
