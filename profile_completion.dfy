/** The three-step profile completion wizard shown after sign-up: the step
    counter, the checks made before registering, the registration payload,
    the profile rules, and the dashboard chosen afterwards. */
module ProfileCompletion {
  import opened Wrappers
  import opened Strings

  const FirstStep: int := 1
  const LastStep: int := 3
  const DoctorRole: string := "doctor"
  const EmptyAvailability: string := "{}"
  const DoctorHome: string := "/doctor"
  const ClientHome: string := "/client"

  const CinRequired: string := "Le numéro CIN est requis."
  const AddressRequired: string := "L'adresse est requise."

  /** Casablanca, the map's initial location. */
  const DefaultLat: real := 33.5731
  const DefaultLng: real := -7.5898

  /** The wizard's fields; for each picture only whether one was chosen. */
  datatype FormData = FormData(
    firstName: string, lastName: string, cinNumber: string, address: string,
    speciality: string, hospital: string, lat: real, lng: real,
    hasProfileImage: bool, hasCinFront: bool, hasCinBack: bool)

  const EmptyForm: FormData := FormData("", "", "", "", "", "", DefaultLat, DefaultLng, false, false, false)

  /** The fields a doctor's registration adds. */
  datatype DoctorFields = DoctorFields(speciality: string, hospitalName: string, availability: string)

  /** The multipart body of the registration; the password, e-mail and role
      come from the browser's storage, where they may be missing. */
  datatype Registration = Registration(
    firstName: string, lastName: string, cinNumber: string, address: string,
    lat: real, lng: real, withProfileImage: bool, withCinFront: bool, withCinBack: bool,
    doctor: Option<DoctorFields>,
    password: Option<string>, email: Option<string>, role: Option<string>)

  /** The user the server returns after registering. */
  datatype RegisteredUser = RegisteredUser(id: string, firstName: string, lastName: string, email: string, role: string)

  /** The record written to the browser's storage after registering: each
      field is `result?.user?.<field>`, absent when there is no result. */
  datatype StoredUser = StoredUser(id: Option<string>, firstName: Option<string>, lastName: Option<string>,
                                   email: Option<string>, role: Option<string>)

  /** The stored record when every field is undefined (`"{}"`). */
  const EmptyRecord: StoredUser := StoredUser(None, None, None, None, None)

  // ---------------------------------------------------------------------
  // The profile rules
  // ---------------------------------------------------------------------

  /** `profileSchema`: minimum lengths for every field, and for a doctor
      both a speciality and a hospital. The speciality and hospital are
      optional in the schema, but the form always holds them as strings,
      so their minimum length applies to every role. */
  predicate SchemaValid(form: FormData, storedRole: Option<string>): (r: bool)
    ensures r ==> form.firstName != "" && form.lastName != "" && form.cinNumber != "" && form.address != ""
    ensures r ==> form.speciality != "" && form.hospital != ""
  {
    && |form.firstName| >= 2 && |form.lastName| >= 2
    && |form.cinNumber| >= 4 && |form.address| >= 5
    && |form.speciality| >= 3 && |form.hospital| >= 3
    && (storedRole == Some(DoctorRole) ==> form.speciality != "" && form.hospital != "")
  }

  /** The doctor-only rule adds nothing: the length rules already demand
      both fields, whatever the role. */
  lemma SchemaIgnoresRole(form: FormData, storedRole: Option<string>)
    ensures SchemaValid(form, storedRole) <==> SchemaValid(form, None)
  {
    if SchemaValid(form, None) && storedRole == Some(DoctorRole) {
      assert |form.speciality| > 0 && |form.hospital| > 0;
    }
  }

  /** So a form that leaves the speciality empty, as a patient's does,
      never satisfies the rules. */
  lemma EmptySpecialityInvalid(form: FormData, storedRole: Option<string>)
    requires form.speciality == ""
    ensures !SchemaValid(form, storedRole)
  {
  }

  // ---------------------------------------------------------------------
  // Registration
  // ---------------------------------------------------------------------

  /** The body sent at the last step: the form's fields, the doctor's
      extra fields with an empty availability when the stored role is
      "doctor", and the stored credentials. */
  function Payload(form: FormData, storedRole: Option<string>, storedPassword: Option<string>,
                   storedEmail: Option<string>): (r: Registration)
    ensures r.doctor.Some? <==> storedRole == Some(DoctorRole)
    ensures r.doctor.Some? ==>
      r.doctor.value == DoctorFields(form.speciality, form.hospital, EmptyAvailability)
    ensures r.firstName == form.firstName && r.lastName == form.lastName
    ensures r.cinNumber == form.cinNumber && r.address == form.address
    ensures r.lat == form.lat && r.lng == form.lng
    ensures r.withProfileImage == form.hasProfileImage && r.withCinFront == form.hasCinFront
    ensures r.withCinBack == form.hasCinBack
    ensures r.password == storedPassword && r.email == storedEmail && r.role == storedRole
  {
    Registration(form.firstName, form.lastName, form.cinNumber, form.address, form.lat, form.lng,
                 form.hasProfileImage, form.hasCinFront, form.hasCinBack,
                 if storedRole == Some(DoctorRole)
                 then Some(DoctorFields(form.speciality, form.hospital, EmptyAvailability))
                 else None,
                 storedPassword, storedEmail, storedRole)
  }

  /** The dashboard for the registration's result: a doctor's, when the
      returned user is a doctor, the patients' otherwise. */
  function Destination(result: Option<RegisteredUser>): (r: string)
    ensures r == DoctorHome <==> result.Some? && result.value.role == DoctorRole
    ensures r == DoctorHome || r == ClientHome
  {
    if result.Some? && result.value.role == DoctorRole then DoctorHome else ClientHome
  }

  /** The value the registration promise chain resolves to as written: its
      last step only logs the answer, and the error handler only logs the
      error, so the chain yields nothing whatever the server says. */
  function ChainResultAsWritten(server: Response<RegisteredUser>): (r: Option<RegisteredUser>)
    ensures r.None?
  {
    match server
    case Ok(_) => None
    case Failed(_) => None
  }

  /** As written, a doctor who completes the wizard is sent to the
      patients' dashboard. */
  lemma AsWrittenDoctorSentToClient(u: RegisteredUser)
    requires u.role == DoctorRole
    ensures Destination(ChainResultAsWritten(Ok(u))) == ClientHome
    ensures Destination(ChainResult(Ok(u))) == DoctorHome
  {
  }

  /** The chain as evidently intended: it yields the user the server
      returned, and nothing when registering failed. */
  function ChainResult(server: Response<RegisteredUser>): (r: Option<RegisteredUser>)
    ensures server.Ok? ==> r == Some(server.payload)
    ensures server.Failed? ==> r.None?
  {
    match server
    case Ok(user) => Some(user)
    case Failed(_) => None
  }

  /** With the intended chain, the registered user lands on the dashboard
      of their role. */
  lemma DestinationFollowsRole(server: Response<RegisteredUser>)
    ensures server.Ok? ==> (Destination(ChainResult(server)) == DoctorHome <==> server.payload.role == DoctorRole)
    ensures server.Failed? ==> Destination(ChainResult(server)) == ClientHome
  {
  }

  /** The record stored for a registration result: the user's fields when
      there is one, no field at all otherwise. */
  function StoredRecord(result: Option<RegisteredUser>): (r: StoredUser)
    ensures result.None? ==> r == EmptyRecord
    ensures result.Some? ==> && r.id == Some(result.value.id) && r.firstName == Some(result.value.firstName)
                             && r.lastName == Some(result.value.lastName) && r.email == Some(result.value.email)
                             && r.role == Some(result.value.role)
  {
    match result
    case None => EmptyRecord
    case Some(u) => StoredUser(Some(u.id), Some(u.firstName), Some(u.lastName), Some(u.email), Some(u.role))
  }

  /** The alert that stops the last step, in the order the checks are
      made: a blank CIN number, then a blank address. */
  function MissingField(form: FormData): (r: Option<string>)
    ensures r.None? <==> !IsBlank(form.cinNumber) && !IsBlank(form.address)
    ensures IsBlank(form.cinNumber) ==> r == Some(CinRequired)
    ensures !IsBlank(form.cinNumber) && IsBlank(form.address) ==> r == Some(AddressRequired)
  {
    if IsBlank(form.cinNumber) then Some(CinRequired)
    else if IsBlank(form.address) then Some(AddressRequired)
    else None
  }

  // ---------------------------------------------------------------------
  // The wizard
  // ---------------------------------------------------------------------

  class Wizard {
    var step: int
    var form: FormData
    var alert: Option<string>
    var registrations: seq<Registration>
    /** The record stored in the browser after registering. */
    var storedUser: Option<StoredUser>
    var destination: Option<string>

    /** The step is one of the three the page draws. */
    predicate Valid()
      reads this
    {
      FirstStep <= step <= LastStep
    }

    constructor ()
      ensures Valid() && step == FirstStep && form == EmptyForm && alert.None?
      ensures registrations == [] && storedUser.None? && destination.None?
    {
      step := 1;
      form := EmptyForm;
      alert := None;
      registrations := [];
      storedUser := None;
      destination := None;
    }

    /** `handleLocationSelect`. */
    method SelectLocation(lat: real, lng: real)
      modifies this`form
      ensures form == old(form).(lat := lat, lng := lng)
    {
      form := form.(lat := lat, lng := lng);
    }

    /** The "previous" button, drawn only after the first step. */
    method Previous()
      requires Valid() && step > FirstStep
      modifies this`step
      ensures Valid() && step == old(step) - 1
    {
      step := step - 1;
    }

    /** `handleSubmit`. Before the last step it only advances, whatever the
        profile rules say of the form. At the last step a blank CIN number
        or address stops it with an alert; otherwise the registration is
        sent as `Register` sends it. */
    method Submit(storedRole: Option<string>, storedPassword: Option<string>, storedEmail: Option<string>,
                  server: Response<RegisteredUser>)
      requires Valid()
      modifies this`step, this`alert, this`registrations, this`storedUser, this`destination
      ensures Valid()
      ensures old(step) < LastStep ==>
        && step == old(step) + 1 && alert == old(alert) && registrations == old(registrations)
        && storedUser == old(storedUser) && destination == old(destination)
      ensures old(step) == LastStep ==> step == old(step)
      ensures old(step) == LastStep && MissingField(old(form)).Some? ==>
        && alert == MissingField(old(form)) && registrations == old(registrations)
        && storedUser == old(storedUser) && destination == old(destination)
      ensures old(step) == LastStep && MissingField(old(form)).None? ==>
        && alert == old(alert)
        && registrations == old(registrations) + [Payload(old(form), storedRole, storedPassword, storedEmail)]
        && storedUser == Some(EmptyRecord)
        && destination == Some(ClientHome)
    {
      if step < LastStep {
        step := step + 1;
      } else {
        Register(storedRole, storedPassword, storedEmail, server);
      }
    }

    /** The last step of `handleSubmit`, as written: the awaited chain
        yields nothing whatever the server answers, so the stored record
        has no field and the patients' dashboard is chosen, even for a
        doctor. */
    method Register(storedRole: Option<string>, storedPassword: Option<string>, storedEmail: Option<string>,
                    server: Response<RegisteredUser>)
      modifies this`alert, this`registrations, this`storedUser, this`destination
      ensures MissingField(form).Some? ==>
        && alert == MissingField(form) && registrations == old(registrations)
        && storedUser == old(storedUser) && destination == old(destination)
      ensures MissingField(form).None? ==>
        && alert == old(alert)
        && registrations == old(registrations) + [Payload(form, storedRole, storedPassword, storedEmail)]
        && storedUser == Some(EmptyRecord)
        && destination == Some(ClientHome)
    {
      var missing := MissingField(form);
      if missing.Some? {
        alert := missing;
        return;
      }
      var request := Payload(form, storedRole, storedPassword, storedEmail);
      registrations := registrations + [request];
      var result := ChainResultAsWritten(server);
      storedUser := Some(StoredRecord(result));
      destination := Some(Destination(result));
    }
  }

  /** Three submissions from the first step reach the registration: the
      step counter visits every step once. */
  method ThreeSubmissionsRegister(w: Wizard, storedRole: Option<string>, server: Response<RegisteredUser>)
    requires w.Valid() && w.step == FirstStep
    requires MissingField(w.form).None?
    modifies w
    ensures w.step == LastStep
    ensures w.registrations == old(w.registrations) + [Payload(w.form, storedRole, None, None)]
  {
    w.Submit(storedRole, None, None, server);
    w.Submit(storedRole, None, None, server);
    w.Submit(storedRole, None, None, server);
  }
}
