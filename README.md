# Salon booking: a verified model of its validation and selection rules

The application lets salon owners ("hairdressers") publish services and weekly working hours,
and lets clients book appointments. Almost all of it is web-framework plumbing. This project
models in Dafny the parts that have real rules:

- **Appointments** (`models.dfy`, module `Models`). An `Appointment` class whose `Save`
  recomputes `endTime = startTime + service.durationMinutes` every time and changes nothing
  else. The four statuses and the default one. The 1..5 review rating.
- **Forms** (`forms.dfy`, module `Forms`):
  - the sign-up owner flag;
  - the booking form: it offers only the salon's own services, and its `clean_start_time`
    rejects any start that is not strictly in the future;
  - the working-hours row validator, with the source's order of checks. A row flagged
    DELETE is skipped. A half-filled start/end pair gets an error on the missing field.
    A complete row with a truthy weekday is checked for half-open overlap against the
    stored ranges of the same salon and weekday, leaving out the row's own primary key.
- **Views** (`views.dfy`, module `Views`), over plain sequences instead of querysets:
  - the home page's complete and featured salon lists;
  - the booking POST, as written and as evidently intended (see "## Findings");
  - a client's appointments, latest first;
  - the owner's monthly summary (revenue in integer cents, count, most popular service);
  - the calendar event feed of a salon.
- **Utilities** (`utils.dfy`, module `Utils`): the client IP taken from X-Forwarded-For or
  REMOTE_ADDR, and the rule that local addresses skip geolocation.
- `collections.dfy` (module `Collections`) holds shared helpers: `Option`, `Result`, `Filter`,
  subsequences, and Python's `str.split` on one separator character with its `join` inverse.

Conventions:
- Datetimes are integer minutes.
- Prices are integer cents. They may be negative: the decimal column has no lower bound.
- Times of day are minutes since midnight.
- "Now" and "the first moment of the current month" are parameters.
- Python truthiness is written out. A `datetime.time` is always truthy, so a start or end
  counts as "given" exactly when it is present. A weekday value of 0 is falsy.

Several rules one might expect of a booking system are absent from the code, and the model
does not add them:
- Nothing checks that a working-hours range starts before it ends (`Forms.InvertedRangeAccepted`).
- The formset class is empty, so rows of one submission are never compared with each
  other (`Forms.SubmittedRowsNotComparedWithEachOther`).
- Nothing places an appointment inside working hours.
- Nothing stops one appointment overlapping another.
- There is no NO_SHOW status and no status-transition logic. `update_appointment_status`
  is imported by core/urls.py:24 but is not defined in core/views.py.

## Model

| member | source | states |
|---|---|---|
| `Models.ParseStatus` | core/models.py:67-72 | a stored status code is accepted exactly when it is the code of one of the four statuses, and then names that status |
| `Models.StatusCodeRoundTrip` | core/models.py:67-72 | parsing the code of any status gives that status back; each status is one of the declared choices |
| `Models.AcceptedStatusCodes` | core/models.py:67-72 | the accepted codes are exactly PENDING, CONFIRMED, COMPLETED and CANCELLED; NO_SHOW is rejected |
| `Models.Appointment.constructor` | core/models.py:82-84 | a new appointment has no client and no end time yet, and its status is the default, PENDING |
| `Models.EndTimeFor` | core/models.py:91-93 | the end is the start plus the service's duration in minutes, never before the start, and equal to it only for a 0-minute service |
| `Models.Appointment.Save` | core/models.py:87-94 | after a save the end time is start plus duration, whatever it held before; client, service, start and status are unchanged; saving again with the same start and service leaves the end time as it was; the row written is the instance's fields with that end time |
| `Models.User.constructor` | core/models.py:15-16 | a new user is neither a client nor an owner |
| `Models.ValidRatingRange` | core/models.py:108 | a rating is one of the choices exactly when it lies in 1..5 |
| `Forms.OwnerFlag` | core/forms.py:61 | the owner flag is true exactly when the cleaned `is_owner` value is present and true; absent means false |
| `Forms.SignUpForm.Save` | core/forms.py:59-65 | the new user carries the cleaned username, names and email, and its owner flag comes from the form |
| `Forms.SignUpForm.constructor` | core/forms.py:59-61 | the form holds the cleaned sign-up data its save reads |
| `Forms.SelectableServices` | core/forms.py:74-79 | a service is offered exactly when a salon is given and the service belongs to it; order is kept; no salon means no services |
| `Forms.AppointmentForm.constructor` | core/forms.py:69-79 | the form's service choices are the selectable services of its salon |
| `Forms.CleanStartTime` | core/forms.py:91-107 | a start at or before now fails with `past_date`; a strictly later start, or an absent one, is returned unchanged |
| `Forms.ChosenService` | core/forms.py:87-89 | the submitted service id resolves to an offered service with that id, or to nothing when no offered service has it |
| `Forms.ValidateBooking` | core/forms.py:87-107 | the booking form is valid exactly when an offered service is chosen and a start strictly after now is given; a past start yields `past_date`, an unknown service an invalid-choice error |
| `Forms.CleanErrors` | core/forms.py:123-172 | a deleted row gets no error; start without end gets an error on the end field only, end without start one on the start field only; a complete row with a truthy weekday gets one form-level error exactly when a stored range of the same salon and weekday, other than the row's own, overlaps it half-open; no other error is ever produced, so a row with no clash and no half-filled pair is accepted |
| `Forms.ChecksOverlap` | core/forms.py:153 | the overlap query runs only when start, end and weekday are all truthy; a weekday of 0 is not |
| `Forms.ExcludedPk` | core/forms.py:163 | the excluded primary key is the instance's exactly when it is present and non-zero; otherwise no row is excluded |
| `Forms.Competes` | core/forms.py:160-164 | a stored range is queried when it belongs to the instance's salon and the weekday and is not the excluded row |
| `Forms.HasClash` | core/forms.py:160-170 | some queried stored range overlaps the row's range |
| `Forms.Overlaps` | core/forms.py:167 | the half-open test: the row starts before the stored range ends and ends after it starts |
| `Forms.FindClash` | core/forms.py:160-170 | the loop over the queried ranges reports a clash exactly when some stored range of the salon and weekday, not the excluded key, overlaps the row |
| `Forms.WorkingHoursForm.AddError` | core/forms.py:134-143 | an added error is appended and its field is dropped from the cleaned data |
| `Forms.WorkingHoursForm.Clean` | core/forms.py:123-172 | cleaning appends exactly the row's errors to the form's errors and leaves the cleaned values as they were |
| `Forms.WorkingHoursForm.constructor` | core/forms.py:123-132 | a form starts from its cleaned row, the field errors of its own cleaning, and its instance's salon and primary key |
| `Forms.OverlapsSymmetric` | core/forms.py:167 | whether two ranges overlap does not depend on their order |
| `Forms.TouchingRangesDoNotOverlap` | core/forms.py:167 | ranges `[a,b)` and `[b,c)` do not overlap |
| `Forms.NonEmptyRangeOverlapsItself` | core/forms.py:167 | a range of positive length overlaps itself |
| `Forms.OverlapsVersusCommonMinute` | core/forms.py:167 | ranges sharing a minute pass the test, and for non-empty ranges only those do; an inverted range such as [5,3) passes against [0,10) without sharing a minute |
| `Forms.TouchingStoredRangeAccepted` | core/forms.py:166-170 | a row that only touches a stored range of the same salon and weekday is accepted |
| `Forms.OwnStoredVersionIgnored` | core/forms.py:160-164 | for an instance with a truthy (non-zero) primary key, removing its own stored version never changes the outcome, so editing such a row never conflicts with its old version |
| `Forms.DayZeroSkipsOverlapCheck` | core/forms.py:153 | a row whose weekday value is 0 never gets an overlap error |
| `Forms.InvertedRangeAccepted` | core/forms.py:149-170 | nothing requires start before end: a row whose start is not before its end is accepted when nothing is stored, never gets a missing-field error, and is rejected only for overlapping a stored range of the same salon and weekday that spans it |
| `Forms.SubmittedRowsNotComparedWithEachOther` | core/forms.py:188-189 | two overlapping rows of one submission both pass when nothing is stored, although the first would be rejected if the second were stored |
| `Collections.Split` | core/utils.py:7 | splitting yields at least one segment, none containing the separator; the first segment is a prefix of the text followed by the separator or the end; text without the separator gives itself |
| `Collections.JoinSplit` | core/utils.py:7 | joining the segments with the separator gives the text back |
| `Utils.GetIp` | core/utils.py:3-10 | with a non-empty X-Forwarded-For header the result is its prefix up to the first comma, contains no comma, and is the whole header when it has no comma; with the header absent or empty it is REMOTE_ADDR |
| `Utils.GetIpFirstComma` | core/utils.py:7 | when the first comma is at index k the result is exactly the first k characters, untrimmed |
| `Utils.LocationFromIp` | core/utils.py:20-21 | 127.0.0.1 and localhost get the default coordinates, whatever the lookup would give; other addresses get the lookup's outcome |
| `Views.HomeSalons` | core/views.py:133-134 | the home list holds exactly the complete salons, in queryset order |
| `Views.FeaturedSalons` | core/views.py:137-139 | the featured list is the first at most five of the listed salons that have images, in order |
| `Views.FeaturedAreListed` | core/views.py:133-139 | every featured salon is listed, complete and has images, and the featured list keeps the home list's order |
| `Views.HomeContextData` | core/views.py:129-145 | the context holds the home and featured lists; a local client address gets the fallback coordinates and any other address the lookup's outcome |
| `Views.HairdresserDetailPost` | core/views.py:161-180 | as written: an unauthenticated POST redirects to login and creates nothing; an invalid form creates nothing and ends in a server error, so its errors are never shown; a valid one creates a PENDING appointment of the requester, for a service of this salon, starting after now, with its end computed, and redirects to the client's list |
| `Views.Book` | core/views.py:166-173 | the form is built for this salon and validated; a failing form creates nothing; a valid one yields a fresh appointment of the requester for the chosen service of this salon, starting after now, pending, whose written row carries the computed end |
| `Views.HairdresserDetailPostCorrected` | core/views.py:176-180 | as evidently intended: the same outcomes, except that an invalid form re-renders the page with exactly the form's errors |
| `Views.PastStartFailsValidation` | core/views.py:169-180 | a booking starting at now fails validation with `past_date` whatever service is named, so the form-error branch is reachable by every logged-in client |
| `Views.SortByStartDesc` | core/views.py:190-192 | the result is a permutation of the input ordered by start time, latest first |
| `Views.ClientAppointments` | core/views.py:188-192 | the list holds exactly the requesting client's appointments, each as often as stored, latest start first |
| `Views.RevenueAppend` | core/views.py:231-233 | the revenue of two lists together is the sum of their revenues |
| `Views.TopService` | core/views.py:236-242 | with no names the result is "N/A"; otherwise it is a name occurring at least as often as every other |
| `Views.MostCommon` | core/views.py:236-241 | the chosen name is in the candidate pool and has a maximal count among the pool |
| `Views.OwnerDashboard` | core/views.py:223-242 | the count is the number of the salon's COMPLETED appointments starting on or after the first moment of the month (later months included); with none, revenue is 0, count 0 and top service "N/A"; otherwise the top service is the name of one of them with a maximal count |
| `Views.DashboardIgnoresOthers` | core/views.py:226-230 | an appointment of another salon, not completed, or starting before the first moment of the month leaves the whole summary unchanged |
| `Views.DashboardCountsCompleted` | core/views.py:226-234 | a completed appointment of the salon starting on or after the first moment of the month adds its price to the revenue and one to the count |
| `Views.CompletedThisMonth` | core/views.py:226-230 | the counted appointments are exactly the salon's COMPLETED ones starting on or after the first moment of the month, in queryset order |
| `Views.Revenue` | core/views.py:231-233 | the total price of no appointments is 0; it is non-negative when every price is, and non-positive when every price is |
| `Views.AppointmentEventsData` | core/views.py:270-284 | one event per appointment of the salon, whatever its status, in order, with the appointment's start and end, title "Reservado" and colour "#dc3545" |
| `Views.SalonAppointments` | core/views.py:272 | the fed appointments are exactly those of the salon's services, whatever their status, in queryset order |

## Left out

- core/management/commands/seed_data.py: random test data (Faker, `random`) and bulk database writes.
- core/urls.py, core/admin.py and the migration: routing, admin configuration and schema metadata.
- The WorkingHours model and `Hairdresser.is_complete` are not defined in core/models.py.
  Stored working-hours rows are the value record `Models.WorkingHours`. The `is_complete()`
  verdict is an input flag of `Models.Hairdresser`. The weekday numbering (`DAYS_OF_WEEK`)
  is not part of this model.
- Persistence: `super().save()`, `formset.save()`, transactions and the queries themselves.
  Querysets are sequences. `Appointment.Save` stops before the row is written;
  `Appointment.Record` gives the row it writes, which is what the views read.
- `WorkingHoursForm.clean` re-reads DELETE after the incomplete-pair check, at core/forms.py:144-147.
  The model leaves that check out. It can never fire: the first check already returned on a
  true DELETE, and nothing in between changes that value.
- `super().clean()` of a model form also asks for unique validation. No unique constraint
  of the WorkingHours model is part of this model.
- `AppointmentForm.__init__` also sets the `min` attribute of the start widget to the
  formatted current time. That is HTML rendering and is not modelled.
- Booking-form validation covers only what core/forms.py decides: required fields, the
  restricted service choice and the past-date rule. Parsing of the submitted values is Django's.
- The ipinfo.io request and the float parsing of `loc` in `get_location_from_ip`
  (core/utils.py:23-39) are network I/O and floats. Their outcome is the parameter `lookup`.
  `DefaultCoordinates` stands for the Buenos Aires fallback pair.
- `earnings_chart_data`: float conversion and `strftime` month labels.
- `hairdresser_map_data`: float latitude and longitude.
- Authentication, permission mixins, messages, templates, redirects and the get-or-create
  salon profile are framework behaviour. "Authenticated" is an input boolean. The service
  CRUD, profile and password views are left out for the same reason.
- `HairdresserDetailView.get_object` is not modelled. Its 404 for a missing salon is
  framework behaviour; the salon is an input.
- Event start and end are integers, not `isoformat()` strings. Time zones are not modelled.
- The status display labels and the Spanish error-message texts are not modelled. Errors are
  identified by their kind and field.
- The eight-digit bound of the price column is not modelled. Prices are unbounded integer cents.
- The `Offer` and `HairdresserImage` models hold only stored data with no rules.
  `Models.Hairdresser` carries an image count.
- Views.TopService: states only that the reported name has a maximal count. With ties the
  source leaves the choice to the database; the model reports the earliest tied name.
- Views.ClientAppointments: states the order by start time only. The source leaves the order
  of equal start times to the database.

## Findings

| source | as written | input that shows it | evidently intended | confidence | as-written member | corrected member |
|---|---|---|---|---|---|---|
| core/views.py:176-180 | an invalid booking form is re-rendered through `self.get_context_data()`, whose detail-view base reads `self.object`; `post` never assigns it (the salon is kept in a local), so the request fails with an attribute error | a logged-in POST whose start equals now (`Views.PastStartFailsValidation`) | assign the salon as the view's object first, so the page shows the form's errors | not executed; rests on the framework's detail-view behaviour, which is not part of this model | `Views.HairdresserDetailPost` | `Views.HairdresserDetailPostCorrected` |
