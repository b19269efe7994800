/**
  The records of the salon-booking application: users, salons ("hairdressers"), services,
  appointments and review ratings. Datetimes are integer minutes; prices are integer cents
  (the source's two-decimal `DecimalField`); durations are minutes.
 */
module Models {
  import opened Collections

  type UserId = nat
  type SalonId = nat
  type ServiceId = nat

  /** A registered user; the two role flags default to false. */
  class User {
    var username: string
    var firstName: string
    var lastName: string
    var email: string
    var isClient: bool
    var isOwner: bool

    constructor (username: string, firstName: string, lastName: string, email: string)
      ensures this.username == username && this.firstName == firstName
      ensures this.lastName == lastName && this.email == email
      ensures !isClient && !isOwner
    {
      this.username := username;
      this.firstName := firstName;
      this.lastName := lastName;
      this.email := email;
      isClient := false;
      isOwner := false;
    }
  }

  /**
    A salon as the home page sees it. `complete` is the salon's `is_complete()` verdict and
    `images` the number of gallery images it has.
   */
  datatype Hairdresser = Hairdresser(id: SalonId, name: string, complete: bool, images: nat)

  /**
    A service offered by one salon. `durationMinutes` is a non-negative integer; the price,
    in cents, has no lower bound, as the decimal column has none.
   */
  datatype Service = Service(
    id: ServiceId, salon: SalonId, name: string, priceCents: int, durationMinutes: nat)

  /** The appointment statuses of `STATUS_CHOICES`, in declaration order. */
  datatype Status = Pending | Confirmed | Completed | Cancelled

  /** The status a new appointment gets when none is given. */
  const DefaultStatus: Status := Pending

  const StatusChoices: seq<Status> := [Pending, Confirmed, Completed, Cancelled]

  /** The value stored in the `status` column. */
  function StatusCode(s: Status): string
  {
    match s
    case Pending => "PENDING"
    case Confirmed => "CONFIRMED"
    case Completed => "COMPLETED"
    case Cancelled => "CANCELLED"
  }

  /**
    Choice validation of the `status` column: a stored code is accepted exactly when it is
    the code of one of the four statuses.
   */
  function ParseStatus(code: string): (r: Option<Status>)
    ensures r.Some? ==> StatusCode(r.value) == code
    ensures r.None? ==> forall s :: StatusCode(s) != code
  {
    if code == "PENDING" then Some(Pending)
    else if code == "CONFIRMED" then Some(Confirmed)
    else if code == "COMPLETED" then Some(Completed)
    else if code == "CANCELLED" then Some(Cancelled)
    else None
  }

  lemma StatusCodeRoundTrip(s: Status)
    ensures ParseStatus(StatusCode(s)) == Some(s)
    ensures s in StatusChoices
  {
  }

  /** There are exactly four accepted codes; in particular "NO_SHOW" is not one of them. */
  lemma AcceptedStatusCodes(code: string)
    ensures ParseStatus(code).Some? <==>
            code in {"PENDING", "CONFIRMED", "COMPLETED", "CANCELLED"}
    ensures ParseStatus("NO_SHOW") == None
  {
  }

  /** The end of an appointment of `service` starting at `start`. */
  function EndTimeFor(start: int, service: Service): (r: int)
    ensures r - start == service.durationMinutes
    ensures r >= start
    ensures r == start <==> service.durationMinutes == 0
  {
    start + service.durationMinutes
  }

  /** An appointment as it is stored, read back by the views. */
  datatype AppointmentRecord = AppointmentRecord(
    client: Option<UserId>, service: Service, startTime: int, endTime: int, status: Status)

  /**
    An appointment instance before and while it is saved. `endTime` is `None` until the
    first save computes it.
   */
  class Appointment {
    var client: Option<UserId>
    var service: Service
    var startTime: int
    var endTime: Option<int>
    var status: Status

    /** A new, unsaved appointment with the given service and start, as a form builds it. */
    constructor (service: Service, startTime: int)
      ensures this.service == service && this.startTime == startTime
      ensures client == None && endTime == None && status == DefaultStatus
    {
      this.service := service;
      this.startTime := startTime;
      client := None;
      endTime := None;
      status := DefaultStatus;
    }

    /**
      Recomputes `endTime` from the start and the service's duration, whatever it held
      before, and changes nothing else. Writing the row to the database is not modelled.
     */
    method Save()
      modifies this
      ensures endTime == Some(EndTimeFor(startTime, service))
      ensures client == old(client) && service == old(service)
      ensures startTime == old(startTime) && status == old(status)
      ensures old(endTime) == Some(EndTimeFor(old(startTime), old(service))) ==>
              endTime == old(endTime)
      ensures Record() == AppointmentRecord(client, service, startTime,
                                            EndTimeFor(startTime, service), status)
    {
      endTime := Some(EndTimeFor(startTime, service));
    }

    /** The row that a save writes. */
    function Record(): AppointmentRecord
      reads this
      requires endTime.Some?
    {
      AppointmentRecord(client, service, startTime, endTime.value, status)
    }
  }

  /** A time of day, in minutes since midnight. */
  type TimeOfDay = t: nat | t < 24 * 60

  /**
    A stored working-hours range of one salon on one weekday. The model class itself is not
    part of this model; these are the fields the working-hours form reads.
   */
  datatype WorkingHours = WorkingHours(
    id: nat, salon: SalonId, day: nat, startTime: TimeOfDay, endTime: TimeOfDay)

  /** The `choices` of `Review.rating`: 1 to 5. */
  function RatingChoices(): (r: seq<nat>)
    ensures |r| == 5
  {
    seq(5, i requires 0 <= i < 5 => i + 1)
  }

  predicate ValidRating(rating: int)
  {
    rating in RatingChoices()
  }

  lemma {:induction false} ValidRatingRange(rating: int)
    ensures ValidRating(rating) <==> 1 <= rating <= 5
  {
    if 1 <= rating <= 5 {
      assert RatingChoices()[rating - 1] == rating;
    }
  }
}
