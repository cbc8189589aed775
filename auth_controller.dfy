/** The authentication endpoints: registration (always as a patient, with a
    placeholder patient record), login, password change and admin creation.
    Token generation is a function the model leaves uninterpreted. */
module Auth {
  import opened Base
  import opened Entities
  import opened Users
  import opened Patients
  import opened Doctors

  /** The JSON body of a response. */
  datatype Body =
    | Message(message: string)
    | Error(error: string)
    | RegisteredUser(username: string, role: Role)
    | LoggedIn(token: string, username: string, role: Role, doctorId: Option<int>, patientId: Option<int>)
      /** The default error page of an uncaught exception. */
    | ServerError

  datatype Response = Response(status: int, body: Body)

  const InvalidCredentials: Response := Response(401, Error("Invalid credentials"))

  /** `Role.name()` */
  function RoleName(r: Role): string {
    match r
    case ADMIN => "ADMIN"
    case DOCTOR => "DOCTOR"
    case PATIENT => "PATIENT"
  }

  /** The placeholder patient created for a newly registered user. */
  function PlaceholderPatient(username: string): (p: Patient)
    ensures p.name == Some(username) && p.age == Some(0) && p.gender == Some("Other")
    ensures p.contactNumber == Some("N/A") && p.medicalHistory == Some("New Patient")
    ensures p.id.None? && p.doctor.None? && p.labTestsRequired.None?
  {
    Patient(None, Some(username), Some(0), Some("Other"), Some("N/A"), Some("New Patient"), None, None)
  }

  class AuthController {
    const users: UserService
    const patients: PatientService
    const doctors: DoctorService
    /** `JwtUtil.generateToken(username, role)` */
    const generateToken: (string, string) -> string

    ghost predicate Valid()
      reads this, users, patients, doctors
    {
      users.Valid() && patients.Valid() && doctors.Valid()
    }

    constructor (users: UserService, patients: PatientService,
                 doctors: DoctorService, generateToken: (string, string) -> string)
      ensures this.users == users && this.patients == patients && this.doctors == doctors
      ensures this.generateToken == generateToken
    {
      this.users := users;
      this.patients := patients;
      this.doctors := doctors;
      this.generateToken := generateToken;
    }

    /** `register`: whatever role the request carries, the user is registered as a
        PATIENT and one placeholder patient named after the username is created;
        a taken username gives 400 and creates nothing. */
    method Register(u: User) returns (resp: Response)
      requires Valid()
      modifies users, patients
      ensures Valid()
      ensures u.username in old(users.Usernames()) ==>
                resp == Response(400, Error(UsernameTaken))
                && users.users == old(users.users) && patients.patients == old(patients.patients)
      ensures u.username !in old(users.Usernames()) ==>
                resp == Response(200, RegisteredUser(u.username, PATIENT))
                && users.users == old(users.users)[old(users.nextId) := Registered(u.(role := Some(PATIENT)), users.encode, old(users.nextId))]
                && patients.patients == old(patients.patients)[old(patients.nextId) := PlaceholderPatient(u.username).(id := Some(old(patients.nextId)))]
    {
      var user := u.(role := Some(PATIENT));
      var registered := users.RegisterUser(user);
      if registered.Err? {
        return Response(400, Error(registered.error));
      }
      if registered.value.role == Some(PATIENT) {
        var _ := patients.CreatePatient(PlaceholderPatient(registered.value.username));
      }
      resp := Response(200, RegisteredUser(registered.value.username, PATIENT));
    }

    /** `login`: an unknown user and a wrong password both give 401 with the same
        body; a user without a role makes token generation throw; otherwise the
        body carries the token and, for a doctor or a patient, the id of the
        record with exactly that name when there is one. */
    method Login(username: string, password: string) returns (resp: Response)
      requires Valid()
      ensures users.Lookup(username).None? ==> resp == InvalidCredentials
      ensures users.Lookup(username).Some? && !users.matches(password, users.Lookup(username).value.password) ==>
                resp == InvalidCredentials
      ensures resp.status == 200 <==>
                users.Lookup(username).Some? && users.matches(password, users.Lookup(username).value.password)
                && users.Lookup(username).value.role.Some?
                && (users.Lookup(username).value.role == Some(DOCTOR) ==> |doctors.Named(username)| <= 1)
                && (users.Lookup(username).value.role == Some(PATIENT) ==> |patients.Named(username)| <= 1)
      ensures resp.status == 200 ==>
                var role := users.Lookup(username).value.role.value;
                && resp.body.LoggedIn?
                && resp.body == LoggedIn(generateToken(username, RoleName(role)), username, role,
                                         resp.body.doctorId, resp.body.patientId)
                && (resp.body.doctorId.Some? <==> role == DOCTOR && doctors.Named(username) != {})
                && (resp.body.doctorId.Some? ==> doctors.Named(username) == {resp.body.doctorId.value})
                && (resp.body.patientId.Some? <==> role == PATIENT && patients.Named(username) != {})
                && (resp.body.patientId.Some? ==> patients.Named(username) == {resp.body.patientId.value})
      ensures resp.status != 200 ==> resp == InvalidCredentials || resp == Response(500, ServerError)
    {
      var userOpt := users.FindByUsername(username);
      if userOpt.None? {
        return InvalidCredentials;
      }
      var user := userOpt.value;
      if !users.ValidatePassword(password, user.password) {
        return InvalidCredentials;
      }
      if user.role.None? {
        return Response(500, ServerError);
      }
      var role := user.role.value;
      var token := generateToken(user.username, RoleName(role));
      var doctorId: Option<int> := None;
      var patientId: Option<int> := None;
      if role == DOCTOR {
        var doctor := doctors.FindByName(user.username);
        if doctor.Err? {
          return Response(500, ServerError);
        }
        if doctor.value.Some? {
          doctorId := doctor.value.value.id;
        }
      } else if role == PATIENT {
        var patient := patients.FindByName(user.username);
        if patient.Err? {
          return Response(500, ServerError);
        }
        if patient.value.Some? {
          patientId := patient.value.value.id;
        }
      }
      resp := Response(200, LoggedIn(token, user.username, role, doctorId, patientId));
    }

    /** `changePassword`: an unknown user or a wrong current password gives 400
        and changes nothing; otherwise only that user's password changes. */
    method ChangePassword(username: string, currentPassword: string, newPassword: string) returns (resp: Response)
      requires Valid()
      modifies users`users
      ensures Valid()
      ensures old(users.Lookup(username)).None? ==>
                resp == Response(400, Error("User not found")) && users.users == old(users.users)
      ensures old(users.Lookup(username)).Some? && !users.matches(currentPassword, old(users.Lookup(username)).value.password) ==>
                resp == Response(400, Error("Invalid current password")) && users.users == old(users.users)
      ensures old(users.Lookup(username)).Some? && users.matches(currentPassword, old(users.Lookup(username)).value.password) ==>
                var u := old(users.Lookup(username)).value;
                resp == Response(200, Message("Password updated successfully"))
                && users.users == old(users.users)[u.id.value := u.(password := users.encode(newPassword))]
    {
      var userOpt := users.FindByUsername(username);
      if userOpt.None? {
        return Response(400, Error("User not found"));
      }
      if !users.ValidatePassword(currentPassword, userOpt.value.password) {
        return Response(400, Error("Invalid current password"));
      }
      var _ := users.UpdatePassword(username, newPassword);
      resp := Response(200, Message("Password updated successfully"));
    }

    /** `createAdmin`: 403 unless the requester exists and is an ADMIN; then a
        user with role ADMIN is registered, or 400 when the username is taken. */
    method CreateAdmin(requester: string, username: string, password: string, email: Option<string>) returns (resp: Response)
      requires Valid()
      modifies users`users, users`nextId
      ensures Valid()
      ensures old(users.Lookup(requester)).None? ==>
                resp == Response(403, Error("Unauthorized: Requester not found")) && users.users == old(users.users)
      ensures old(users.Lookup(requester)).Some? && old(users.Lookup(requester)).value.role != Some(ADMIN) ==>
                resp == Response(403, Error("Unauthorized: Only Admins can create other Admins"))
                && users.users == old(users.users)
      ensures resp.status == 200 <==>
                old(users.Lookup(requester)).Some? && old(users.Lookup(requester)).value.role == Some(ADMIN)
                && username !in old(users.Usernames())
      ensures resp.status == 200 ==>
                resp.body == Message("Admin created successfully")
                && users.users == old(users.users)[old(users.nextId) :=
                     Registered(User(None, username, password, email, Some(ADMIN), None), users.encode, old(users.nextId))]
      ensures resp.status == 400 ==> resp.body == Error(UsernameTaken) && users.users == old(users.users)
    {
      var requesterOpt := users.FindByUsername(requester);
      if requesterOpt.None? {
        return Response(403, Error("Unauthorized: Requester not found"));
      }
      if requesterOpt.value.role != Some(ADMIN) {
        return Response(403, Error("Unauthorized: Only Admins can create other Admins"));
      }
      var newUser := User(None, username, password, email, Some(ADMIN), None);
      var registered := users.RegisterUser(newUser);
      if registered.Err? {
        return Response(400, Error(registered.error));
      }
      resp := Response(200, Message("Admin created successfully"));
    }
  }
}
