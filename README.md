# Hospital management system — a Dafny model

The system is a hospital management application. It has two halves.

- A Spring server keeps doctors, patients, appointments, bills and login accounts in a relational database.
  - Booking refuses a doctor who already has a non-cancelled appointment less than 30 whole minutes away, as `Duration.toMinutes` counts them.
  - Bills carry a fee, test charges and a stored total, one bill per appointment.
  - Login returns a token and, for doctors and patients, the id of their record.
- A React client offers the screens:
  - doctor and patient management with search, filters, sorting and add/edit forms;
  - booking;
  - a patient's own appointments;
  - billing with an itemised lab-test breakdown;
  - the admin and doctor dashboards, lab reports and the role-dependent sidebar.

The model follows the source file by file, one Dafny module per file:

- Server services whose repositories change become classes.
  - Each holds its repository as a `map` from id to row, plus the next identity value.
  - Each has a `Valid()` invariant that every operation preserves.
- `Bill` is a class whose `calculateTotal` updates its fields in place.
- Client forms and pages whose state changes become classes with one method per handler.
- Pure computations become functions, with lemmas stating what they promise: filters, sorts, statistics, validation order, payload shapes and text parsing.
- Shared modules hold the generic pieces:
  - `Base`: Option/Result and the `x || 0` idiom;
  - `Text`: ASCII case folding, trimming, splitting and joining, substring search and decimal rendering;
  - `Seqs`: filter, count, sum and a stable insertion sort with its correctness lemmas;
  - `Forms`: first-failing-check validation;
  - `Entities`: the records and the time constants.

Conventions:

- Money is an integer number of the smallest currency unit.
- Timestamps are integers in milliseconds of local time. The current time is a parameter.
- A form's number box is `Option<int>`, where None is a blank or unparsable box; only whole numbers are modelled. The doctor edit form's boxes also record whether a number was pre-filled or typed, because JavaScript treats a pre-filled 0 and a typed "0" differently.
- A role read from local storage is `Option<Role>`.
- A JavaScript expression that would throw where the source has no handler becomes a `requires`. One that throws inside a `try` becomes an error result.

## Model

| member | source | states |
|---|---|---|
| BillEntity.TotalOf | src/main/java/com/HMS/Hospitalmanagement/billing/Bill.java:39-42 | a missing fee or charge counts as 0, so the total is the other amount (0 when both are missing) |
| BillEntity.Bill.constructor | src/main/java/com/HMS/Hospitalmanagement/billing/Bill.java:15-32 | the new entity holds exactly the given field values |
| BillEntity.Bill.CalculateTotal | src/main/java/com/HMS/Hospitalmanagement/billing/Bill.java:39-42 | only the total changes; afterwards it equals fee + charges; on a bill whose total is already consistent it changes nothing |
| Billing.Prepared | src/main/java/com/HMS/Hospitalmanagement/billing/BillService.java:24-39 | creation replaces the appointment by the stored one, or null when it is unknown; it defaults a null status to PENDING and a null date to now, and leaves a consistent total |
| Billing.Updated | src/main/java/com/HMS/Hospitalmanagement/billing/BillService.java:55-68 | fee, charges and status are overwritten only when supplied; id, appointment and date are kept; the total is recomputed |
| Billing.UpdateWithNothing | src/main/java/com/HMS/Hospitalmanagement/billing/BillService.java:57-67 | an update supplying none of the three fields leaves a consistent bill unchanged |
| Billing.UpdateIdempotent | src/main/java/com/HMS/Hospitalmanagement/billing/BillService.java:55-70 | updating twice with the same details equals updating once |
| Billing.BillService.constructor | src/main/java/com/HMS/Hospitalmanagement/billing/BillService.java:19-22 | starts with an empty bill repository and the given appointments, with the invariant established |
| Billing.BillService.PrepareForSave | src/main/java/com/HMS/Hospitalmanagement/billing/BillService.java:26-39 | the in-place steps turn the incoming bill into `Prepared` of its old value |
| Billing.BillService.CreateBill | src/main/java/com/HMS/Hospitalmanagement/billing/BillService.java:24-41 | the prepared bill is saved under a fresh id unless its appointment is null, unsaved or already billed (the join column is non-null and unique); a refused save stores nothing |
| Billing.BillService.ApplyDetails | src/main/java/com/HMS/Hospitalmanagement/billing/BillService.java:57-67 | the field copies on the loaded entity give `Updated` of its old value |
| Billing.BillService.UpdateBill | src/main/java/com/HMS/Hospitalmanagement/billing/BillService.java:55-70 | a missing id gives null and changes nothing; otherwise only that row changes, to `Updated`, and the invariant (consistent totals) is kept |
| Billing.BillService.DeleteBill | src/main/java/com/HMS/Hospitalmanagement/billing/BillService.java:72-78 | returns true iff the id existed; afterwards the id is absent and every other row is unchanged |
| Billing.BillService.FindByAppointmentId | src/main/java/com/HMS/Hospitalmanagement/billing/BillService.java:51-53 | finds a bill iff some stored bill references that appointment, and the found bill references it |
| Appointments.TooCloseWindow | src/main/java/com/HMS/Hospitalmanagement/appointment/AppointmentService.java:37-43 | with d the existing date minus the new one in milliseconds, the dates conflict iff -1,799,000 <= d <= 1,799,999: `Duration.between` rounds d down to whole seconds and `toMinutes` then truncates toward zero |
| Appointments.WindowLopsided | src/main/java/com/HMS/Hospitalmanagement/appointment/AppointmentService.java:37-43 | an existing appointment 29:59.999 later blocks, one 29:59.5 earlier does not, one 29:59 earlier does |
| Appointments.ThirtyMinutesApartAllowed | src/main/java/com/HMS/Hospitalmanagement/appointment/AppointmentService.java:39-41 | dates exactly 30 minutes apart, before or after, do not conflict |
| Appointments.CancelledNeverBlocks | src/main/java/com/HMS/Hospitalmanagement/appointment/AppointmentService.java:36 | a CANCELLED appointment never blocks a booking |
| Appointments.Resolve | src/main/java/com/HMS/Hospitalmanagement/appointment/AppointmentService.java:50-70 | success iff the patient id and the doctor id are given and stored; the patient is checked first, each failure has its own error, the stored records replace the references and a null status becomes SCHEDULED; no other field changes |
| Appointments.Updated | src/main/java/com/HMS/Hospitalmanagement/appointment/AppointmentService.java:91-114 | the update keeps the stored id; UpdatedFields states the effect on every other field |
| Appointments.UpdatedFields | src/main/java/com/HMS/Hospitalmanagement/appointment/AppointmentService.java:92-113 | date, reason, status and lab tests change only when supplied; a supplied patient or doctor id becomes the stored record, or null when unknown |
| Appointments.UpdateWithNothing | src/main/java/com/HMS/Hospitalmanagement/appointment/AppointmentService.java:92-113 | a request supplying nothing leaves the appointment unchanged |
| Appointments.UpdateIdempotent | src/main/java/com/HMS/Hospitalmanagement/appointment/AppointmentService.java:90-116 | applying the same request twice equals applying it once |
| Appointments.AppointmentService.constructor | src/main/java/com/HMS/Hospitalmanagement/appointment/AppointmentService.java:21-27 | starts with no appointments and the given patients and doctors, with the invariant established |
| Appointments.AppointmentService.CheckConflicts | src/main/java/com/HMS/Hospitalmanagement/appointment/AppointmentService.java:32-45 | no error iff no stored non-cancelled appointment of that doctor is `TooClose` (the window of `TooCloseWindow`) and none lacks a date; every error names a real clash |
| Appointments.AppointmentService.CreateAppointment | src/main/java/com/HMS/Hospitalmanagement/appointment/AppointmentService.java:29-72 | a conflicting booking is refused; otherwise `Resolve` decides; success stores exactly the resolved appointment under a fresh id; any failure stores nothing |
| Appointments.AppointmentService.ApplyDetails | src/main/java/com/HMS/Hospitalmanagement/appointment/AppointmentService.java:92-113 | the step-by-step field updates give `Updated` |
| Appointments.AppointmentService.UpdateAppointment | src/main/java/com/HMS/Hospitalmanagement/appointment/AppointmentService.java:90-116 | a missing id gives null; otherwise the row becomes `Updated`, with no conflict check, unless a reference became null (then the save is refused and nothing changes) |
| Appointments.AppointmentService.DeleteAppointment | src/main/java/com/HMS/Hospitalmanagement/appointment/AppointmentService.java:118-124 | returns true iff the id existed; afterwards the id is absent and every other row is unchanged |
| Patients.UpdatedPatient | src/main/java/com/HMS/Hospitalmanagement/patient/PatientService.java:35-50 | name, age, gender, contact, history and lab tests are all overwritten (null included); the doctor changes only when an id is supplied, to the stored doctor or null |
| Patients.UpdatedPatientIdempotent | src/main/java/com/HMS/Hospitalmanagement/patient/PatientService.java:35-52 | updating twice with the same details equals updating once |
| Patients.PatientService.constructor | src/main/java/com/HMS/Hospitalmanagement/patient/PatientService.java:18-21 | starts with no patients and the given doctors |
| Patients.PatientService.CreatePatient | src/main/java/com/HMS/Hospitalmanagement/patient/PatientService.java:23-25 | stores the record as given under a fresh id |
| Patients.PatientService.UpdatePatient | src/main/java/com/HMS/Hospitalmanagement/patient/PatientService.java:35-52 | a missing id gives null and changes nothing; otherwise only that row changes, to `UpdatedPatient` |
| Patients.PatientService.DeletePatient | src/main/java/com/HMS/Hospitalmanagement/patient/PatientService.java:54-60 | returns true iff the id existed; afterwards the id is absent |
| Patients.PatientService.FindByName | src/main/java/com/HMS/Hospitalmanagement/auth/AuthController.java:92-95 | null iff no patient has exactly that name; an error iff two or more do; otherwise the single one |
| Doctors.UpdatedDoctor | src/main/java/com/HMS/Hospitalmanagement/doctor/DoctorService.java:31-45 | the ten profile fields take the supplied values (null included); id and certificate are kept |
| Doctors.UpdatedDoctorOverwrites | src/main/java/com/HMS/Hospitalmanagement/doctor/DoctorService.java:33-42 | the result depends only on the supplied profile, not on the stored one |
| Doctors.DoctorService.constructor | src/main/java/com/HMS/Hospitalmanagement/doctor/DoctorService.java:15-17 | starts with no doctors |
| Doctors.DoctorService.CreateDoctor | src/main/java/com/HMS/Hospitalmanagement/doctor/DoctorService.java:19-21 | stores the record as given under a fresh id |
| Doctors.DoctorService.UpdateDoctor | src/main/java/com/HMS/Hospitalmanagement/doctor/DoctorService.java:31-45 | a missing id gives null and changes nothing; otherwise only that row changes, to `UpdatedDoctor` |
| Doctors.DoctorService.DeleteDoctor | src/main/java/com/HMS/Hospitalmanagement/doctor/DoctorService.java:74-80 | returns true iff the id existed; afterwards the id is absent |
| Doctors.DoctorService.FindByName | src/main/java/com/HMS/Hospitalmanagement/doctor/DoctorRepository.java:8 | null iff no doctor has exactly that name; an error iff two or more do; otherwise the single one |
| Users.Registered | src/main/java/com/HMS/Hospitalmanagement/auth/UserService.java:26-30 | the stored user has the encoded password, `enabled` defaulting to true, and its other fields unchanged |
| Users.UserService.Lookup | src/main/java/com/HMS/Hospitalmanagement/auth/UserService.java:33-35 | a user is found iff one has that username, and it is that user |
| Users.UserService.constructor | src/main/java/com/HMS/Hospitalmanagement/auth/UserService.java:16-19 | starts with no users and the given encoder |
| Users.UserService.RegisterUser | src/main/java/com/HMS/Hospitalmanagement/auth/UserService.java:21-31 | a taken username is refused and nothing changes; otherwise exactly the registered user is added, so usernames stay unique |
| Users.UserService.FindByUsername | src/main/java/com/HMS/Hospitalmanagement/auth/UserService.java:33-35 | the search returns `Lookup(username)` |
| Users.UserService.LookupUnique | src/main/java/com/HMS/Hospitalmanagement/auth/UserService.java:33-35 | with unique usernames, the stored user with a name is the one the lookup gives |
| Users.UserService.UpdatePassword | src/main/java/com/HMS/Hospitalmanagement/auth/UserService.java:41-46 | an unknown username is refused and nothing changes; otherwise only that user's password changes, to the encoding of the new one |
| Auth.PlaceholderPatient | src/main/java/com/HMS/Hospitalmanagement/auth/AuthController.java:45-50 | the placeholder patient has the username as its name, age 0, gender "Other", contact "N/A" and history "New Patient" |
| Auth.AuthController.constructor | src/main/java/com/HMS/Hospitalmanagement/auth/AuthController.java:23-32 | holds the given services and token generator |
| Auth.AuthController.Register | src/main/java/com/HMS/Hospitalmanagement/auth/AuthController.java:34-62 | whatever role is sent, the user is registered as PATIENT and exactly one placeholder patient is created; a taken username gives 400 and creates nothing |
| Auth.AuthController.Login | src/main/java/com/HMS/Hospitalmanagement/auth/AuthController.java:64-99 | an unknown user and a wrong password give the same 401; 200 iff the credentials match and a name lookup does not fail; the body carries the token, plus the doctor or patient id exactly when a record with that name exists |
| Auth.AuthController.ChangePassword | src/main/java/com/HMS/Hospitalmanagement/auth/AuthController.java:101-119 | an unknown user or a wrong current password gives 400 and changes nothing; otherwise only that user's password changes |
| Auth.AuthController.CreateAdmin | src/main/java/com/HMS/Hospitalmanagement/auth/AuthController.java:121-159 | 403 unless the requester exists and is an ADMIN; then 200 iff the username is free, adding exactly one ADMIN user; 400 changes nothing |
| Entities.StaffControls | hospital-ui/src/components/doctors/DoctorsManagement.js:150 | the `role !== 'PATIENT'` guard holds exactly for an administrator, a doctor, or a session with no known role; it decides the add-doctor button here, the doctor table's edit and delete handlers (DoctorsManagement.js:231-232), the bills' edit and delete buttons (billing/BillingManagement.js:222-223) and the doctor dialog's footer (DoctorDetailsModal.js:160) |
| Entities.StartOfDay | hospital-ui/src/components/billing/BillingManagement.js:85-86 | midnight of the same day: at or before the time, less than a day earlier |
| CreateBillModal.Unbilled | hospital-ui/src/components/billing/CreateBillModal.js:23-26 | the picker lists exactly the appointments that are neither billed nor cancelled, in order |
| CreateBillModal.FirstWithId | hospital-ui/src/components/billing/CreateBillModal.js:36 | the first position holding that id, or none iff no appointment has it |
| CreateBillModal.FindAppointment | hospital-ui/src/components/billing/CreateBillModal.js:36 | finds an appointment with that id iff one exists |
| CreateBillModal.InitialItems | hospital-ui/src/components/billing/CreateBillModal.js:46-52 | one blank-cost item per test parsed from the patient's list, in order |
| CreateBillModal.BlankItemsChargeNothing | hospital-ui/src/components/billing/CreateBillModal.js:29-32 | items whose costs are all blank sum to 0 |
| CreateBillModal.InitialItemsChargeNothing | hospital-ui/src/components/billing/CreateBillModal.js:46-52 | a freshly selected appointment's items charge nothing |
| CreateBillModal.AddItemCharges | hospital-ui/src/components/billing/CreateBillModal.js:78-84 | appending an item adds its cost to the charges |
| CreateBillModal.RemoveItemCharges | hospital-ui/src/components/billing/CreateBillModal.js:86-90 | removing item i subtracts its cost |
| CreateBillModal.EditCostCharges | hospital-ui/src/components/billing/CreateBillModal.js:72-76 | editing cost i changes the charges by the difference of the two costs |
| CreateBillModal.CreatePayload | hospital-ui/src/components/billing/CreateBillModal.js:110-115 | the request names the appointment, sends the fee and charges with blanks as 0 and the status, and no id, total or date |
| CreateBillModal.StoredTotalIsDisplayedTotal | hospital-ui/src/components/billing/CreateBillModal.js:92-96 | once the server prepares the request, the stored total is the total the form displayed, and the status is kept |
| CreateBillModal.CreateBillForm.constructor | hospital-ui/src/components/billing/CreateBillModal.js:7-20 | nothing selected, status PENDING, no items, charges 0 |
| CreateBillModal.CreateBillForm.SyncTestCharges | hospital-ui/src/components/billing/CreateBillModal.js:29-32 | the charges box becomes the sum of the item costs |
| CreateBillModal.CreateBillForm.HandleAppointmentChange | hospital-ui/src/components/billing/CreateBillModal.js:34-65 | a found appointment sets the doctor's fee (0 when missing) and the parsed test items; an unknown id clears fee and items |
| CreateBillModal.CreateBillForm.HandleFeeChange | hospital-ui/src/components/billing/CreateBillModal.js:67-70 | only the fee box changes |
| CreateBillModal.CreateBillForm.HandleStatusChange | hospital-ui/src/components/billing/CreateBillModal.js:67-70 | only the status changes |
| CreateBillModal.CreateBillForm.HandleTestCostChange | hospital-ui/src/components/billing/CreateBillModal.js:72-76 | only item `index`'s cost changes, and the charges move by the difference |
| CreateBillModal.CreateBillForm.HandleAddCustomTest | hospital-ui/src/components/billing/CreateBillModal.js:78-84 | with a name and a cost, exactly one item is appended and both boxes are cleared; otherwise nothing changes |
| CreateBillModal.CreateBillForm.HandleRemoveTest | hospital-ui/src/components/billing/CreateBillModal.js:86-90 | the item at `index` is removed, the others keep their order, and its cost leaves the charges |
| CreateBillModal.CreateBillForm.CalculateTotal | hospital-ui/src/components/billing/CreateBillModal.js:92-96 | the displayed total is the fee (blank as 0) plus the sum of the item costs |
| CreateBillModal.CreateBillForm.HandleSubmit | hospital-ui/src/components/billing/CreateBillModal.js:98-126 | without a selected appointment only the error is set; otherwise exactly one create request, `CreatePayload` of the form, is sent |
| EditBillModal.InitialAmount | hospital-ui/src/components/billing/EditBillModal.js:8-9 | the box starts with the amount, or 0 when it is missing or 0 |
| EditBillModal.InitialStatus | hospital-ui/src/components/billing/EditBillModal.js:10 | the select starts with the bill's status, or PENDING |
| EditBillModal.UpdatePayload | hospital-ui/src/components/billing/EditBillModal.js:32-36 | the request sends fee and charges (invalid as 0) and the status, and nothing else |
| EditBillModal.UpdateStoresDisplayedTotal | hospital-ui/src/components/billing/EditBillModal.js:20-38 | applied by the server, the update sets the three fields, keeps id, appointment and date, and stores the displayed total |
| EditBillModal.UntouchedSubmitKeepsTotal | hospital-ui/src/components/billing/EditBillModal.js:7-38 | submitting the form untouched keeps a consistent bill's total |
| EditBillModal.EditBillForm.constructor | hospital-ui/src/components/billing/EditBillModal.js:6-13 | the form opens with `InitialAmount` and `InitialStatus` of the bill |
| EditBillModal.EditBillForm.HandleFeeChange | hospital-ui/src/components/billing/EditBillModal.js:15-18 | only the fee changes |
| EditBillModal.EditBillForm.HandleChargesChange | hospital-ui/src/components/billing/EditBillModal.js:15-18 | only the charges change |
| EditBillModal.EditBillForm.HandleStatusChange | hospital-ui/src/components/billing/EditBillModal.js:15-18 | only the status changes |
| EditBillModal.EditBillForm.CalculateTotal | hospital-ui/src/components/billing/EditBillModal.js:20-24 | the displayed total is `TotalOf` the two boxes, the same total the server stores |
| EditBillModal.EditBillForm.HandleSubmit | hospital-ui/src/components/billing/EditBillModal.js:26-47 | every submit sends one update of the bill's id with `UpdatePayload`; a failure sets the error text |
| BillingManagement.VisibleBills | hospital-ui/src/components/billing/BillingManagement.js:44-56 | a non-patient sees every bill; a patient sees exactly the bills whose patient name contains the username ignoring case, in order; without a username the list fails iff some bill has a patient name |
| BillingManagement.SubstringNameSharesBills | hospital-ui/src/components/billing/BillingManagement.js:51-53 | a patient "ann" is shown a bill of "Joanna" |
| BillingManagement.FilterBills | hospital-ui/src/components/billing/BillingManagement.js:65-101 | the result is the bills meeting search, status and date filters, sorted newest first (stable), and a permutation of that selection |
| BillingManagement.StatsPartition | hospital-ui/src/components/billing/BillingManagement.js:139-147 | revenue + pending + the other bills' totals = the sum of all totals |
| BillingManagement.CancelledBillInNeitherSum | hospital-ui/src/components/billing/BillingManagement.js:139-147 | a cancelled bill changes neither sum but is counted in the number of bills |
| BookAppointment.FilterDoctors | hospital-ui/src/components/appointments/BookAppointment.js:36-47 | an empty term lists every doctor; otherwise exactly the doctors whose name or specialization contains the term ignoring case, in order |
| BookAppointment.BookAppointmentPage.constructor | hospital-ui/src/components/appointments/BookAppointment.js:12-13 | no doctor selected, dialog closed |
| BookAppointment.BookAppointmentPage.HandleBookClick | hospital-ui/src/components/appointments/BookAppointment.js:49-52 | the dialog opens for that doctor |
| BookAppointment.BookAppointmentPage.HandleBookingSuccess | hospital-ui/src/components/appointments/BookAppointment.js:54-57 | the dialog closes and the doctor is forgotten |
| BookingModal.HourMinute | hospital-ui/src/components/appointments/BookingModal.js:50-51 | splitting "hh:mm" and parsing both halves gives the two two-digit numbers |
| BookingModal.TwoDigits | hospital-ui/src/components/appointments/BookingModal.js:51 | parsing two digits gives their decimal value |
| BookingModal.TimeSlotsParse | hospital-ui/src/components/appointments/BookingModal.js:17-20 | the eight slots parse to the hours 9 to 12 and 14 to 17, on the hour |
| BookingModal.AtTime | hospital-ui/src/components/appointments/BookingModal.js:49-51 | setting the hours keeps the calendar day and puts the time at that hour and minute after midnight, keeping only the milliseconds |
| BookingModal.ScheduledAt | hospital-ui/src/components/appointments/BookingModal.js:49-52 | a chosen slot on a chosen date gives a time on that same day |
| BookingModal.ChecksOrder | hospital-ui/src/components/appointments/BookingModal.js:26-34 | a missing date or time is reported first; once both are chosen, a blank or whitespace-only reason is refused; everything else passes |
| BookingModal.FindPatientSpec | hospital-ui/src/components/appointments/BookingModal.js:44 | the lookup finds the first patient whose name equals the username ignoring case, provided all earlier patients have names; it finds nothing iff all have names and none matches; without a username it never finds one |
| BookingModal.BookingRequest | hospital-ui/src/components/appointments/BookingModal.js:55-62 | the request carries the two ids, the time, the reason, status SCHEDULED and an empty lab-test list, and no id |
| BookingModal.BookingRequestAccepted | hospital-ui/src/components/appointments/BookingModal.js:55-64 | with both ids stored, the server keeps the request's date, reason and SCHEDULED status and links the stored records |
| BookingModal.ErrorText | hospital-ui/src/components/appointments/BookingModal.js:76 | the shown error is the exception's message, or the fallback text when it is empty; never empty |
| BookingModal.BookingForm.constructor | hospital-ui/src/components/appointments/BookingModal.js:11-15 | no date or time, empty reason and error |
| BookingModal.BookingForm.SelectDate | hospital-ui/src/components/appointments/BookingModal.js:113 | the date is set |
| BookingModal.BookingForm.SelectTime | hospital-ui/src/components/appointments/BookingModal.js:125-130 | the time is set to one of the slots |
| BookingModal.BookingForm.SetReason | hospital-ui/src/components/appointments/BookingModal.js:142 | the reason is set |
| BookingModal.BookingForm.HandleSubmit | hospital-ui/src/components/appointments/BookingModal.js:22-80 | a failed check shows its message and sends nothing; a patient that is not found makes reading its id throw, so its message is shown and nothing is sent; otherwise exactly `BookingRequest` is sent and a failure's message is shown |
| MyAppointments.Listed | hospital-ui/src/components/appointments/MyAppointments.js:18-40 | a PATIENT session with a username sees exactly the appointments whose patient name equals the username ignoring case, in order; any other session sees all |
| MyAppointments.TabList | hospital-ui/src/components/appointments/MyAppointments.js:57-71 | the upcoming tab lists exactly the non-cancelled appointments not before now; the past tab lists those before now, cancelled or completed; both keep order |
| MyAppointments.TabCountsMatchLists | hospital-ui/src/components/appointments/MyAppointments.js:107-114 | each tab label counts exactly the list its tab shows |
| MyAppointments.TabsOverlap | hospital-ui/src/components/appointments/MyAppointments.js:57-71 | every appointment is in at least one tab, and in both iff it is completed and not yet due |
| MyAppointments.TabsCoverAll | hospital-ui/src/components/appointments/MyAppointments.js:107-114 | the two counts add up to all appointments plus the completed ones not yet due |
| MyAppointments.CancelChangesOnlyStatus | hospital-ui/src/components/appointments/MyAppointments.js:48 | the server applies the cancel request by changing the status alone |
| MyAppointments.CancelledIsPast | hospital-ui/src/components/appointments/MyAppointments.js:48-49 | once cancelled, an appointment leaves the upcoming tab and is listed as past |
| Dashboard.LoadedStats | hospital-ui/src/components/dashboard/Dashboard.js:22-42 | the counts of patients and doctors (every doctor counted as active) and of today's appointments; an appointment without a date makes the load fail and keeps the previous numbers |
| Dashboard.CountForSnoc | hospital-ui/src/components/dashboard/Dashboard.js:55-67 | one more appointment adds one to the counts of its kind |
| Dashboard.TallyAddsUp | hospital-ui/src/components/dashboard/Dashboard.js:61-65 | a doctor's completed and pending counts add up to all of that doctor's appointments |
| Dashboard.StepAt | hospital-ui/src/components/dashboard/Dashboard.js:56-66 | one iteration keeps the entry of each doctor id equal to its tally |
| Dashboard.StepTallies | hospital-ui/src/components/dashboard/Dashboard.js:55-67 | one iteration extends the tally by one appointment |
| Dashboard.AppointmentsByDoctor | hospital-ui/src/components/dashboard/Dashboard.js:53-69 | an entry exists exactly for each non-zero doctor id with an appointment; it counts the completed ones and all others, which together are all of them |
| Dashboard.MaxCount | hospital-ui/src/components/dashboard/Dashboard.js:103 | at least 1, no smaller than any count, and equal to one of them unless it is 1 |
| Dashboard.FindDay | hospital-ui/src/components/dashboard/Dashboard.js:95 | finds a bar of that day iff there is one |
| Dashboard.Bump | hospital-ui/src/components/dashboard/Dashboard.js:93-99 | among bars of distinct days, only the bar of that day gains one |
| Dashboard.CountByDay | hospital-ui/src/components/dashboard/Dashboard.js:92-100 | each bar's count is the number of appointments on its day; days and labels are unchanged |
| Dashboard.AppointmentChartData | hospital-ui/src/components/dashboard/Dashboard.js:76-110 | seven bars for today and the six days before, in order, with their day names; each counts the appointments of that day; the scale is the largest count, at least 1 |
| DoctorDashboard.TodaysAppointments | hospital-ui/src/components/dashboard/DoctorDashboard.js:20-42 | exactly the doctor's non-cancelled appointments dated today, in order; the load fails iff one of the doctor's non-cancelled appointments has no date |
| DoctorDashboard.View | hospital-ui/src/components/dashboard/DoctorDashboard.js:50-71 | without a linked doctor id the screen is "Profile Not Linked"; otherwise today's list, with a badge counting exactly the listed appointments |
| LabTestSelector.Clean | hospital-ui/src/components/patients/LabTestSelector.js:61 | trimming every piece and dropping the empty ones gives non-empty trimmed entries, never more than the pieces |
| LabTestSelector.CleanCommaFree | hospital-ui/src/components/patients/LabTestSelector.js:61 | cleaning comma-free pieces gives comma-free entries |
| LabTestSelector.TrimKeepsOut | hospital-ui/src/components/patients/LabTestSelector.js:61 | trimming never introduces a character |
| LabTestSelector.SplitPiecesPlain | hospital-ui/src/components/patients/LabTestSelector.js:61 | no piece of a split contains the separator |
| LabTestSelector.ParseTests | hospital-ui/src/components/patients/LabTestSelector.js:58-66 | a null or empty prop gives the empty list; every parsed entry is non-empty, trimmed and comma-free |
| LabTestSelector.JoinNonEmpty | hospital-ui/src/components/patients/LabTestSelector.js:76 | the joined form of a list with a non-empty first entry is not empty |
| LabTestSelector.CleanSplitJoin | hospital-ui/src/components/patients/LabTestSelector.js:61-76 | parsing the joined list, even after leading whitespace, gives back the list of storable entries |
| LabTestSelector.ParseJoinRoundTrip | hospital-ui/src/components/patients/LabTestSelector.js:58-82 | a list of non-empty, trimmed, comma-free entries survives `onChange` and the re-parse |
| LabTestSelector.Removed | hospital-ui/src/components/patients/LabTestSelector.js:71 | every occurrence of the test is gone; every other entry keeps its multiplicity, in order |
| LabTestSelector.RemoveAbsent | hospital-ui/src/components/patients/LabTestSelector.js:80 | removing an absent test changes nothing |
| LabTestSelector.Toggled | hospital-ui/src/components/patients/LabTestSelector.js:68-74 | a selected test is removed; an unselected one is appended at the end |
| LabTestSelector.ToggleTwice | hospital-ui/src/components/patients/LabTestSelector.js:68-77 | toggling an unselected test twice restores the list |
| LabTestSelector.FilteredTests | hospital-ui/src/components/patients/LabTestSelector.js:85-87 | exactly the catalog entries containing the term ignoring case |
| LabTestSelector.EmptySearchListsAll | hospital-ui/src/components/patients/LabTestSelector.js:85-87 | an empty search lists the whole catalog |
| LabTestSelector.EmptySearchListsCatalog | hospital-ui/src/components/patients/LabTestSelector.js:5-51 | the catalog holds 38 tests, all listed before anything is typed |
| LabTestSelector.Selector.constructor | hospital-ui/src/components/patients/LabTestSelector.js:53-56 | no selection and an empty search |
| LabTestSelector.Selector.Sync | hospital-ui/src/components/patients/LabTestSelector.js:58-66 | the selection becomes the parse of the prop |
| LabTestSelector.Selector.HandleToggleTest | hospital-ui/src/components/patients/LabTestSelector.js:68-77 | the selection is toggled and its joined form is emitted |
| LabTestSelector.Selector.HandleRemoveTest | hospital-ui/src/components/patients/LabTestSelector.js:79-83 | the test is removed and the joined form is emitted |
| LabTestSelector.JoinedEntryBreaksApart | hospital-ui/src/components/patients/LabTestSelector.js:61-76 | an entry that is itself a joined list comes back as its pieces, not as itself |
| LabTestSelector.CommaEntryBreaksApart | hospital-ui/src/components/patients/LabTestSelector.js:11 | the catalog's "Thyroid Profile (T3, T4, TSH)", once selected, comes back as three entries |
| LabTestSelector.StorableCatalog | hospital-ui/src/components/patients/LabTestSelector.js:5-51 | the corrected catalog has the same 38 entries, each one storable |
| LabTestSelector.StorableSelectionRoundTrip | hospital-ui/src/components/patients/LabTestSelector.js:58-82 | with the corrected catalog, any selection survives the round trip |
| AddPatientModal.DoctorChoice | hospital-ui/src/components/patients/AddPatientModal.js:22-24 | a doctor reference `{ id }` is chosen iff a non-zero id is picked; otherwise null |
| AddPatientModal.ChoiceRoundTrip | hospital-ui/src/components/patients/AddPatientModal.js:151 | the select shows back the id that was picked (an id of 0 shows as nothing) |
| AddPatientModal.ChecksOrder | hospital-ui/src/components/patients/AddPatientModal.js:34-52 | the first failing check decides the message (blank name, then an age outside 1-120 or missing, then no gender, then a blank contact); the form passes iff no check fails |
| AddPatientModal.Payload | hospital-ui/src/components/patients/AddPatientModal.js:65-68 | the create request carries the fields as typed, the age as a number, and the doctor reference; no id |
| AddPatientModal.AddPatientForm.constructor | hospital-ui/src/components/patients/AddPatientModal.js:8-18 | every field empty, no doctor, no error |
| AddPatientModal.AddPatientForm.HandleChange | hospital-ui/src/components/patients/AddPatientModal.js:20-28 | only the named text field changes |
| AddPatientModal.AddPatientForm.HandleAgeChange | hospital-ui/src/components/patients/AddPatientModal.js:25-27 | only the age changes |
| AddPatientModal.AddPatientForm.HandleDoctorChange | hospital-ui/src/components/patients/AddPatientModal.js:22-24 | the doctor becomes `DoctorChoice` of the picked value |
| AddPatientModal.AddPatientForm.HandleLabTestsChange | hospital-ui/src/components/patients/AddPatientModal.js:30-32 | only the lab-test string changes |
| AddPatientModal.AddPatientForm.ValidateForm | hospital-ui/src/components/patients/AddPatientModal.js:34-52 | passes iff every check does; otherwise the error is the first failing check's message |
| AddPatientModal.AddPatientForm.HandleSubmit | hospital-ui/src/components/patients/AddPatientModal.js:54-79 | a failing check shows its message and sends nothing; otherwise exactly one create request with `Payload`, and a failure shows the generic error |
| AddDoctorModal.EmailPatternShape | hospital-ui/src/components/doctors/AddDoctorModal.js:42 | the pattern accepts exactly strings with no whitespace, a single '@' with text before it, and after it a '.' with text on both sides |
| AddDoctorModal.EmailExamples | hospital-ui/src/components/doctors/AddDoctorModal.js:42 | "a@b.co" passes; "a@bco" and "a b@c.d" do not |
| AddDoctorModal.ChecksOrder | hospital-ui/src/components/doctors/AddDoctorModal.js:33-59 | the six checks report, in order, a blank name, a blank email, a malformed email, a blank contact, no specialization, and a missing or negative experience; the form passes iff none fails |
| AddDoctorModal.UnfoldChecks | hospital-ui/src/components/doctors/AddDoctorModal.js:33-59 | the first failure of six checks, unfolded |
| AddDoctorModal.EmailNotBlank | hospital-ui/src/components/doctors/AddDoctorModal.js:38-45 | an email of the pattern's shape is never blank |
| AddDoctorModal.AcceptedHasExperience | hospital-ui/src/components/doctors/AddDoctorModal.js:54-57 | a form that passes has an experience of at least 0 |
| AddDoctorModal.FirstFailedCheck | hospital-ui/src/components/doctors/AddDoctorModal.js:33-59 | the early-return chain gives the message of the first failing check, or none |
| AddDoctorModal.PayloadKeepsForm | hospital-ui/src/components/doctors/AddDoctorModal.js:72-76 | the request carries every field of the form, the experience as a number, the fee or null when the box is empty, and neither id nor certificate |
| AddDoctorModal.AddDoctorForm.constructor | hospital-ui/src/components/doctors/AddDoctorModal.js:7-20 | the blank form, status ACTIVE, no error |
| AddDoctorModal.AddDoctorForm.HandleChange | hospital-ui/src/components/doctors/AddDoctorModal.js:28-31 | the form becomes its edited copy |
| AddDoctorModal.AddDoctorForm.ValidateForm | hospital-ui/src/components/doctors/AddDoctorModal.js:33-59 | passes iff every check does; otherwise the error is the first failing check's message |
| AddDoctorModal.AddDoctorForm.HandleSubmit | hospital-ui/src/components/doctors/AddDoctorModal.js:61-87 | a failing check shows its message and sends nothing; otherwise exactly one create request with the payload, and a failure shows the generic error |
| EditDoctorModal.NumberAsWritten | hospital-ui/src/components/doctors/EditDoctorModal.js:12-14 | as written (`x \|\| ''`): the box starts empty for a missing number and for 0 alike, otherwise pre-filled with the number, which is then truthy |
| EditDoctorModal.NumberCorrected | hospital-ui/src/components/doctors/EditDoctorModal.js:12-14 | as intended (`x ?? ''`): the box starts empty only for a missing number, otherwise pre-filled with it |
| EditDoctorModal.InitialForm | hospital-ui/src/components/doctors/EditDoctorModal.js:7-18 | as written: texts default to '', numbers to an empty box when missing or 0, the status to ACTIVE |
| EditDoctorModal.CorrectedInitialForm | hospital-ui/src/components/doctors/EditDoctorModal.js:7-18 | as intended: the number boxes are `NumberCorrected` of the doctor's numbers; every other field as written |
| EditDoctorModal.SentAsWritten | hospital-ui/src/components/doctors/EditDoctorModal.js:65-66 | as written (`x ? parseInt(x) : null`): a falsy box, empty or a pre-filled 0, is sent as null; any other box as its number |
| EditDoctorModal.SentCorrected | hospital-ui/src/components/doctors/EditDoctorModal.js:65-66 | as intended (`x !== '' ? ... : null`): only an empty box is sent as null |
| EditDoctorModal.Payload | hospital-ui/src/components/doctors/EditDoctorModal.js:63-67 | the update sends the form's texts and status, each number by `SentAsWritten`, and neither id nor certificate |
| EditDoctorModal.CorrectedPayload | hospital-ui/src/components/doctors/EditDoctorModal.js:63-67 | as intended: the same request with each number sent by `SentCorrected` |
| EditDoctorModal.TestsAgreeOnWrittenBoxes | hospital-ui/src/components/doctors/EditDoctorModal.js:63-67 | on every box the form as written can hold (never a pre-filled 0), the corrected test sends the same request as the written one |
| EditDoctorModal.UntouchedEditErasesZeroExperience | hospital-ui/src/components/doctors/EditDoctorModal.js:12 | as written, saving the form untouched turns an experience of 0 into null on the server |
| EditDoctorModal.PrefillFixAloneStillErases | hospital-ui/src/components/doctors/EditDoctorModal.js:65-66 | with only the pre-fill corrected, a pre-filled experience of 0 is still sent as null and stored as null |
| EditDoctorModal.TestFixAloneStillErases | hospital-ui/src/components/doctors/EditDoctorModal.js:12-14 | with only the request's test corrected, the written pre-fill still turns an experience of 0 into null |
| EditDoctorModal.UntouchedEditKeepsNumbers | hospital-ui/src/components/doctors/EditDoctorModal.js:7-18 | with both corrections, saving the form untouched keeps the doctor's numbers, id, certificate and present status |
| EditDoctorModal.ChecksOrder | hospital-ui/src/components/doctors/EditDoctorModal.js:36-50 | the form passes iff the name is not blank and the email has the pattern's shape; a blank name is reported first, then a blank email, then a malformed one |
| EditDoctorModal.LaxerThanAddForm | hospital-ui/src/components/doctors/EditDoctorModal.js:36-50 | every form the add form accepts passes here |
| EditDoctorModal.FirstFailedCheck | hospital-ui/src/components/doctors/EditDoctorModal.js:36-50 | the early-return chain gives the message of the first failing check, or none |
| EditDoctorModal.EditDoctorForm.constructor | hospital-ui/src/components/doctors/EditDoctorModal.js:6-20 | the form opens with `InitialForm` of the doctor, the pre-fill as written, and no error |
| EditDoctorModal.EditDoctorForm.HandleChange | hospital-ui/src/components/doctors/EditDoctorModal.js:31-34 | the form becomes its edited copy |
| EditDoctorModal.EditDoctorForm.ValidateForm | hospital-ui/src/components/doctors/EditDoctorModal.js:36-50 | passes iff every check does; otherwise the error is the first failing check's message |
| EditDoctorModal.EditDoctorForm.HandleSubmit | hospital-ui/src/components/doctors/EditDoctorModal.js:52-91 | a failing check shows its message and sends nothing; otherwise exactly one update of the doctor's id with `Payload`, and a failure shows the generic error |
| DoctorsManagement.BandsPartition | hospital-ui/src/components/doctors/DoctorsManagement.js:64-72 | the three experience bands (a missing experience counting as 0) never overlap, and together cover exactly the experiences of at least 0 |
| DoctorsManagement.ActiveFilterIsActiveBadge | hospital-ui/src/components/doctors/DoctorsManagement.js:75-79 | the ACTIVE status filter keeps exactly the doctors the table badges as active |
| DoctorsManagement.OrderConnected | hospital-ui/src/components/doctors/DoctorsManagement.js:82-89 | each sort order is total, so sorting by it gives a sorted list |
| DoctorsManagement.ApplyFilters | hospital-ui/src/components/doctors/DoctorsManagement.js:46-80 | the four filters applied one after the other keep exactly the doctors meeting all four, in their original order |
| DoctorsManagement.FilterAndSortDoctors | hospital-ui/src/components/doctors/DoctorsManagement.js:46-92 | exactly the doctors meeting the search, specialization, experience and status filters, a permutation of that selection, sorted by the chosen order with ties kept in place; by experience, most experienced first |
| DoctorsManagement.StatsOf | hospital-ui/src/components/doctors/DoctorsManagement.js:130-134 | total, active and inactive counts; a doctor is never counted both active and inactive |
| DoctorsManagement.MissingStatusCountsActive | hospital-ui/src/components/doctors/DoctorsManagement.js:132-133 | a doctor without a status counts as active and not as inactive |
| DoctorsManagement.GivenSpecializations | hospital-ui/src/components/doctors/DoctorsManagement.js:136 | exactly the non-empty specializations some doctor has |
| DoctorsManagement.Specializations | hospital-ui/src/components/doctors/DoctorsManagement.js:136 | the specialization choices: exactly the non-empty specializations some doctor has, each once |
| PatientsManagement.ActiveDoctors | hospital-ui/src/components/patients/PatientsManagement.js:52 | the doctor choices: exactly the doctors without a status or with status ACTIVE in any case, in order |
| PatientsManagement.BandsPartition | hospital-ui/src/components/patients/PatientsManagement.js:84-92 | the three age bands (a missing age counting as 0) never overlap, and together cover exactly the ages of at least 0 |
| PatientsManagement.OrderConnected | hospital-ui/src/components/patients/PatientsManagement.js:95-102 | each sort order is total, so sorting by it gives a sorted list |
| PatientsManagement.ApplyFilters | hospital-ui/src/components/patients/PatientsManagement.js:58-93 | the four filters applied one after the other keep exactly the patients meeting all four, in their original order |
| PatientsManagement.FilterAndSortPatients | hospital-ui/src/components/patients/PatientsManagement.js:58-105 | exactly the patients meeting the search, gender, doctor and age filters, a permutation of that selection, sorted by the chosen order with ties kept in place; by age, youngest first |
| PatientsManagement.NoFilterKeepsAll | hospital-ui/src/components/patients/PatientsManagement.js:58-93 | with no search and every filter on "all", every patient is kept, in order |
| PatientsManagement.StatsOf | hospital-ui/src/components/patients/PatientsManagement.js:149-154 | total, male, female and with-doctor counts; male and female together never exceed the total |
| DoctorsTable.Initials | hospital-ui/src/components/doctors/DoctorsTable.js:6-13 | at most two characters, none of them a lower-case letter; the doctor dialog's avatar repeats the same code (DoctorDetailsModal.js:35-42) |
| DoctorsTable.InitialsOfOneWord | hospital-ui/src/components/doctors/DoctorsTable.js:6-13 | a one-word name gives its first letter upper-cased |
| DoctorsTable.InitialsOfTwoWords | hospital-ui/src/components/doctors/DoctorsTable.js:6-13 | a two-word name gives both first letters upper-cased |
| DoctorsTable.InitialsOfThreeWords | hospital-ui/src/components/doctors/DoctorsTable.js:6-13 | a three-word name gives the first two words' initials only |
| DoctorsTable.IsActiveIgnoresCase | hospital-ui/src/components/doctors/DoctorsTable.js:15-22 | the badge says active exactly when the status is missing or empty or is ACTIVE in any case |
| DoctorsTable.ExperienceCell | hospital-ui/src/components/doctors/DoctorsTable.js:53 | the cell shows '-' exactly when the experience is missing or 0 |
| DoctorsTable.Actions | hospital-ui/src/components/doctors/DoctorsTable.js:66-83 | view is always offered; edit and delete exactly when their handler is given |
| PatientsTable.GenderIconOf | hospital-ui/src/components/patients/PatientsTable.js:6-10 | the man icon exactly for "male" in any case, the woman icon exactly for "female", the neutral icon otherwise |
| PatientsTable.TruncateText | hospital-ui/src/components/patients/PatientsTable.js:12-15 | '-' for a missing or empty text; a longer text cut to the limit followed by "..."; a shorter one unchanged |
| PatientsTable.AgeCell | hospital-ui/src/components/patients/PatientsTable.js:38 | the cell shows '-' exactly when the age is missing or 0 |
| PatientsTable.DoctorCell | hospital-ui/src/components/patients/PatientsTable.js:46 | "Not assigned" without a doctor, the doctor's name otherwise |
| PatientsTable.LabTestsRequired | hospital-ui/src/components/patients/PatientsTable.js:52-56 | the lab-test badge is shown exactly for a non-empty lab-test string |
| DoctorDetailsModal.Recent | hospital-ui/src/components/doctors/DoctorDetailsModal.js:19 | the first five appointments, or all of them when fewer |
| DoctorDetailsModal.StatsOf | hospital-ui/src/components/doctors/DoctorDetailsModal.js:22-26 | total, completed and upcoming (scheduled, not before now) counts; completed and upcoming never overlap |
| PatientDetailsModal.DetailsOf | hospital-ui/src/components/patients/PatientDetailsModal.js:19-54 | the first five appointments in the server's order; the total, the completed count and the scheduled-not-yet-due count, the last two never overlapping; the man icon exactly for "male" in any case, the woman icon for "female", the neutral icon otherwise |
| Sidebar.EveryEntryListed | hospital-ui/src/components/layout/Sidebar.js:14-24 | the table lists every menu entry |
| Sidebar.SelectSpec | hospital-ui/src/components/layout/Sidebar.js:27 | the role filter keeps exactly the entries offered to the role, in the table's order |
| Sidebar.MenuMembership | hospital-ui/src/components/layout/Sidebar.js:14-27 | an entry is in a session's menu exactly when its role list includes the session's role |
| Sidebar.MenuKeepsTableOrder | hospital-ui/src/components/layout/Sidebar.js:14-27 | the menu keeps the table's order |
| Sidebar.AdminMenu | hospital-ui/src/components/layout/Sidebar.js:16-27 | an administrator sees all eight entries |
| Sidebar.PatientMenu | hospital-ui/src/components/layout/Sidebar.js:16-27 | a patient sees dashboard, doctors, appointments, billing, reports and profile, in that order |
| Sidebar.DoctorMenu | hospital-ui/src/components/layout/Sidebar.js:16-27 | a doctor sees dashboard, patients, appointments and profile, in that order |
| Sidebar.NoRoleNoMenu | hospital-ui/src/components/layout/Sidebar.js:27 | a session without a known role sees no entry |
| Sidebar.CommonEntries | hospital-ui/src/components/layout/Sidebar.js:16-23 | every role sees dashboard, appointments and profile; only an administrator sees settings |
| Reports.QueryPatientName | hospital-ui/src/components/reports/Reports.js:20-33 | a PATIENT session asks for the reports of its own username; every other session asks for all |
| Reports.FilteredReports | hospital-ui/src/components/reports/Reports.js:51-55 | exactly the reports whose test, doctor or patient name contains the term ignoring case, in the server's order |
| Reports.EmptySearchKeepsAll | hospital-ui/src/components/reports/Reports.js:51-55 | before anything is typed every report is listed |
| Reports.CanUpload | hospital-ui/src/components/reports/Reports.js:65 | the upload button is shown to an administrator only |
| Reports.CanDownload | hospital-ui/src/components/reports/Reports.js:106 | the download button is shown to a patient only |
| Reports.UploadAndDownloadExclusive | hospital-ui/src/components/reports/Reports.js:65-106 | no session sees both buttons |

## Left out

- HTTP, the REST controllers, routing and `localStorage`: the session's role and username, the server's answers and whether a request failed are parameters of the model.
- React effects, loading flags, `alert`, `confirm`, navigation and `setTimeout`: only the state a handler leaves behind is modelled.
- `DoctorService.uploadPhoto` and the certificate and photo uploads of the doctor edit form: they write files to disk and are not part of this model.
- Lab-report upload and download: file I/O; only the buttons' visibility and the list query are modelled.
- The password encoder, its `matches` and JWT generation are uninterpreted functions given to the classes; nothing is assumed about them.
- Money is an unbounded integer, not a Java `Double` or a JavaScript float: rounding, `toFixed` formatting and `parseFloat` of fractional input are not modelled.
- `localeCompare` is modelled as code-point lexicographic order, some total order on strings rather than the browser's collation.
- Case folding and the "uppercase" of initials cover ASCII letters only; Unicode case mapping is not modelled.
- Dates are millisecond timestamps in local time; time zones, ISO string conversion and daylight saving are not modelled. The dashboards compare day numbers where the source compares `YYYY-MM-DD` prefixes.
- Each server service owns its own repository map; that patients, doctors, appointments and bills live in one shared database (and cascade effects between them) is not modelled.
- Repository iteration order is not modelled: where the source scans `findAll()`, the model scans the rows in an unspecified order, and the results stated do not depend on it.
- Transactions and concurrent requests are not modelled; each operation runs alone.
- Sorting is modelled on sequences (a stable insertion sort), not in place on the JavaScript array.
- Markup, icons, colours and the `-` display fallbacks other than those listed in the table are rendering only.
- Billing.BillService.CreateBill: a request body carrying an id is stored under a fresh id. In the source, `save` merges such a body into the stored row with that id and overwrites it; that merge is not modelled, so the model promises that stored rows never change on create.
- Appointments.AppointmentService.CreateAppointment: a body carrying an id is stored under a fresh id; the source's merge into the stored row of that id is not modelled.
- Patients.PatientService.CreatePatient: a body carrying an id is stored under a fresh id; the source's merge into the stored row of that id is not modelled.
- Doctors.DoctorService.CreateDoctor: a body carrying an id is stored under a fresh id; the source's merge into the stored row of that id is not modelled.
- Users.UserService.RegisterUser: a body carrying a stored user's id is stored under a fresh id; in the source it overwrites that account (with the new username and password). The merge is not modelled.
- Auth.AuthController.Register: inherits the fresh-id insert of `RegisterUser`; a registration body naming a stored account's id overwrites that account in the source.
- AddPatientModal.ValidAge: the age box holds a whole number. The source checks the typed value, which can be fractional: it refuses "120.5" and accepts "1.5". Fractional entries are not modelled.
- AddPatientModal.Payload: sends the box's whole number. The source sends `parseInt` of the typed text, which is the same only for whole-number entries ("1.5" is sent as 1).
- AddDoctorModal.ValidExperience: the experience box (step 0.01 in the source) holds a whole number. The source refuses "-0.5", whose `parseInt` is 0; fractional entries are not modelled.
- AddDoctorModal.PayloadKeepsForm: sends the box's whole number, which is `parseInt` of the typed text only for whole-number entries.
- DoctorsManagement.FilterAndSortDoctors: its requires asks every shown doctor to have a name when two or more are sorted by name, which is stronger than JavaScript's need (only the doctors the engine happens to pass as the left operand are dereferenced).
- Dashboard.AppointmentChartData: bar heights as percentages of `maxCount` are floating point and are not modelled; only the day counts and `maxCount` are.
- LabTestSelector.StorableSelectionRoundTrip: the round trip is proved for selections drawn from the catalog with its two comma-bearing names written with slashes (see Findings); the selector's handlers themselves work on any strings.

## Findings

| source | as written | input that shows it | evidently intended | confidence | as-written member | corrected member |
|---|---|---|---|---|---|---|
| hospital-ui/src/components/patients/LabTestSelector.js:11 | two catalog entries hold commas inside their names, while the selection is stored as one string joined with ", " and parsed back by splitting on commas (lines 61 and 76) | selecting "Thyroid Profile (T3, T4, TSH)" stores a string that parses back into three entries, none of them in the catalog | every catalog entry survives the join and re-parse as one entry | not executed | LabTestSelector.CommaEntryBreaksApart | LabTestSelector.StorableSelectionRoundTrip |
| hospital-ui/src/components/doctors/EditDoctorModal.js:12-14 | the form pre-fills experience and fee with `value \|\| ''`, so 0 becomes an empty box, and lines 65-66 send an empty (falsy) box as null | opening a doctor with experience 0 and saving without touching anything stores experience null | an untouched form saves the doctor's numbers unchanged: `?? ''` at lines 12 and 14 together with a `!== ''` test at lines 65-66 (either fix alone is not enough for the pre-filled 0) | not executed | EditDoctorModal.UntouchedEditErasesZeroExperience | EditDoctorModal.UntouchedEditKeepsNumbers |
