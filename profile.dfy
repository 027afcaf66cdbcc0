/** The profile page: the password change confirmed in a modal, the gate
    that demands that confirmation before a profile carrying a new password
    is saved, the payload of the save, and the map click that moves the
    location. */
module Profile {
  import opened Wrappers

  const MinPasswordLength: int := 8
  const DoctorRole: string := "doctor"

  /** Paris, the map's initial centre. */
  const DefaultLat: real := 48.8566
  const DefaultLng: real := 2.3522

  const PasswordsDiffer: string := "Les nouveaux mots de passe ne correspondent pas."
  const PasswordTooShort: string := "Le nouveau mot de passe doit contenir au moins 8 caractères."
  const PasswordReset: string := "Mot de passe réinitialisé avec succès !"
  const ResetFailed: string := "Erreur lors de la réinitialisation du mot de passe."
  const ProfileSaved: string := "Profil mis à jour avec succès !"
  const SaveFailed: string := "Erreur lors de la mise à jour du profil."

  datatype Toast = SuccessToast(text: string) | ErrorToast(text: string)

  datatype PasswordData = PasswordData(newPassword: string, confirmNewPassword: string, oldPassword: string)

  const EmptyPasswords: PasswordData := PasswordData("", "", "")

  datatype UserProfile = UserProfile(id: string, firstName: string, lastName: string, role: string)

  /** The editable form; the chosen picture is only known to be there or
      not. Coordinates are JavaScript numbers. */
  datatype FormData = FormData(
    firstName: string, lastName: string, email: string, phoneNumber: string, address: string,
    speciality: string, hospitalName: string, hasImage: bool, lat: real, lng: real)

  const EmptyForm: FormData := FormData("", "", "", "", "", "", "", false, DefaultLat, DefaultLng)

  /** The fields of the multipart body sent to save the profile; the
      doctor-only fields are absent for everyone else. */
  datatype ProfileUpdate = ProfileUpdate(
    firstName: string, lastName: string, email: string, phoneNumber: string, address: string,
    lat: real, lng: real, speciality: Option<string>, hospitalName: Option<string>, withImage: bool)

  datatype PasswordRequest = PasswordRequest(oldPassword: string, newPassword: string)

  /** The first check that refuses a new password: the confirmation must
      match, then the length must reach the minimum. */
  function PasswordRejection(p: PasswordData): (r: Option<string>)
    ensures r.None? <==> p.newPassword == p.confirmNewPassword && |p.newPassword| >= MinPasswordLength
    ensures p.newPassword != p.confirmNewPassword ==> r == Some(PasswordsDiffer)
    ensures p.newPassword == p.confirmNewPassword && |p.newPassword| < MinPasswordLength ==> r == Some(PasswordTooShort)
  {
    if p.newPassword != p.confirmNewPassword then Some(PasswordsDiffer)
    else if |p.newPassword| < 8 then Some(PasswordTooShort)
    else None
  }

  /** A new password is being typed (either field is non-empty). */
  predicate ChangingPassword(p: PasswordData) {
    p.newPassword != "" || p.confirmNewPassword != ""
  }

  /** Saving is held back for confirmation exactly when a new password is
      typed and not yet confirmed. */
  predicate NeedsConfirmation(p: PasswordData, verified: bool) {
    ChangingPassword(p) && !verified
  }

  /** A confirmed change clears the fields, so nothing holds the next save
      back, whether or not the confirmation is then reset. */
  lemma ClearedPasswordsPassGate(verified: bool)
    ensures !NeedsConfirmation(EmptyPasswords, verified)
  {
  }

  /** The body of the save: the form's fields, with the speciality and
      hospital only for a doctor's profile. */
  function Payload(form: FormData, profile: Option<UserProfile>): (r: ProfileUpdate)
    ensures r.speciality.Some? <==> profile.Some? && profile.value.role == DoctorRole
    ensures r.hospitalName.Some? <==> profile.Some? && profile.value.role == DoctorRole
    ensures r.speciality.Some? ==> r.speciality.value == form.speciality && r.hospitalName.value == form.hospitalName
    ensures r.firstName == form.firstName && r.lastName == form.lastName && r.email == form.email
    ensures r.phoneNumber == form.phoneNumber && r.address == form.address
    ensures r.lat == form.lat && r.lng == form.lng && r.withImage == form.hasImage
  {
    var isDoctor := profile.Some? && profile.value.role == DoctorRole;
    ProfileUpdate(form.firstName, form.lastName, form.email, form.phoneNumber, form.address,
                  form.lat, form.lng,
                  if isDoctor then Some(form.speciality) else None,
                  if isDoctor then Some(form.hospitalName) else None,
                  form.hasImage)
  }

  class ProfilePage {
    var profile: Option<UserProfile>
    var passwords: PasswordData
    var passwordLoading: bool
    var form: FormData
    var loading: bool
    var passwordModalOpen: bool
    var verified: bool
    var toast: Option<Toast>
    var passwordRequests: seq<PasswordRequest>
    var updates: seq<ProfileUpdate>

    constructor ()
      ensures profile.None? && passwords == EmptyPasswords && !passwordLoading && form == EmptyForm
      ensures !loading && !passwordModalOpen && !verified && toast.None?
      ensures passwordRequests == [] && updates == []
    {
      profile := None;
      passwords := EmptyPasswords;
      passwordLoading := false;
      form := EmptyForm;
      loading := false;
      passwordModalOpen := false;
      verified := false;
      toast := None;
      passwordRequests := [];
      updates := [];
    }

    /** `handleMapClick`: only the coordinates change. */
    method MapClick(lat: real, lng: real)
      modifies this`form
      ensures form == old(form).(lat := lat, lng := lng)
    {
      form := form.(lat := lat, lng := lng);
    }

    /** `handlePasswordVerification`: a refused password only shows why;
        otherwise the change is requested, and on success the password
        counts as confirmed, the fields are cleared and the modal closes.
        The loading flag ends false on every path. */
    method VerifyPassword(response: Response<()>)
      modifies this`passwords, this`passwordLoading, this`passwordModalOpen, this`verified,
               this`toast, this`passwordRequests
      ensures !passwordLoading
      ensures PasswordRejection(old(passwords)).Some? ==>
        && toast == Some(ErrorToast(PasswordRejection(old(passwords)).value))
        && passwordRequests == old(passwordRequests) && passwords == old(passwords)
        && verified == old(verified) && passwordModalOpen == old(passwordModalOpen)
      ensures PasswordRejection(old(passwords)).None? ==>
        passwordRequests == old(passwordRequests)
          + [PasswordRequest(old(passwords).oldPassword, old(passwords).newPassword)]
      ensures PasswordRejection(old(passwords)).None? && response.Ok? ==>
        && verified && passwords == EmptyPasswords && !passwordModalOpen
        && toast == Some(SuccessToast(PasswordReset))
      ensures PasswordRejection(old(passwords)).None? && response.Failed? ==>
        && verified == old(verified) && passwords == old(passwords) && passwordModalOpen == old(passwordModalOpen)
        && toast == Some(ErrorToast(if response.message != "" then response.message else ResetFailed))
    {
      passwordLoading := true;
      if passwords.newPassword != passwords.confirmNewPassword {
        toast := Some(ErrorToast(PasswordsDiffer));
        passwordLoading := false;
        return;
      }
      if |passwords.newPassword| < 8 {
        toast := Some(ErrorToast(PasswordTooShort));
        passwordLoading := false;
        return;
      }
      passwordRequests := passwordRequests + [PasswordRequest(passwords.oldPassword, passwords.newPassword)];
      match response {
        case Ok(_) =>
          toast := Some(SuccessToast(PasswordReset));
          verified := true;
          passwords := EmptyPasswords;
          passwordModalOpen := false;
        case Failed(message) =>
          toast := Some(ErrorToast(if message != "" then message else ResetFailed));
      }
      passwordLoading := false;
    }

    /** `handleSubmit`: a typed, unconfirmed new password opens the modal
        and saves nothing; otherwise the payload is sent, and on success
        the returned profile replaces the old one and the confirmation is
        spent. */
    method Submit(response: Response<Option<UserProfile>>)
      modifies this`profile, this`loading, this`passwordModalOpen, this`verified, this`toast, this`updates
      ensures NeedsConfirmation(old(passwords), old(verified)) ==>
        && passwordModalOpen && updates == old(updates) && profile == old(profile)
        && verified == old(verified) && toast == old(toast) && loading == old(loading)
      ensures !NeedsConfirmation(old(passwords), old(verified)) ==>
        && updates == old(updates) + [Payload(form, old(profile))]
        && !loading && passwordModalOpen == old(passwordModalOpen)
      ensures !NeedsConfirmation(old(passwords), old(verified)) && response.Ok? ==>
        profile == response.payload && !verified && toast == Some(SuccessToast(ProfileSaved))
      ensures !NeedsConfirmation(old(passwords), old(verified)) && response.Failed? ==>
        && profile == old(profile) && verified == old(verified)
        && toast == Some(ErrorToast(if response.message != "" then response.message else SaveFailed))
    {
      if passwords.newPassword != "" || passwords.confirmNewPassword != "" {
        if !verified {
          passwordModalOpen := true;
          return;
        }
      }
      loading := true;
      updates := updates + [Payload(form, profile)];
      match response {
        case Ok(user) =>
          profile := user;
          verified := false;
          toast := Some(SuccessToast(ProfileSaved));
        case Failed(message) =>
          toast := Some(ErrorToast(if message != "" then message else SaveFailed));
      }
      loading := false;
    }
  }
}
