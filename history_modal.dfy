/** The doctor's appointment history modal: the form recording a closed
    appointment's fee, medications and cause, and the status labels. */
module HistoryModal {
  import opened Wrappers
  import opened Strings

  const Cancelled: string := "cancelled"
  const Completed: string := "completed"
  const Accepted: string := "accepted"

  const FillAllFields: string := "Veuillez remplir tous les champs."
  const TokenMissing: string := "Token d’authentification manquant"
  const AddFailed: string := "Erreur lors de l’ajout des détails."
  const AddSucceeded: string := "Détails ajoutés avec succès !"

  /** The fee is a JavaScript number; `NaN` is not modelled. */
  datatype Details = Details(tarif: real, medicaments: seq<string>, cause: string)

  const EmptyDetails: Details := Details(0.0, [], "")

  datatype Appointment = Appointment(id: string, status: string)

  datatype Toast = SuccessToast(text: string) | ErrorToast(text: string)

  datatype DetailsRequest = DetailsRequest(appointmentId: string, details: Details)

  /** The label shown for a status; unknown statuses read as pending. */
  function StatusLabel(status: string): (r: string)
    ensures status == Cancelled ==> r == "Annulé"
    ensures status == Completed ==> r == "Terminé"
    ensures status == Accepted ==> r == "Accepté"
    ensures status != Cancelled && status != Completed && status != Accepted ==> r == "En attente"
  {
    if status == Cancelled then "Annulé"
    else if status == Completed then "Terminé"
    else if status == Accepted then "Accepté"
    else "En attente"
  }

  /** The form may be sent: a non-zero fee, a medication, and a cause. */
  predicate Complete(d: Details) {
    d.tarif != 0.0 && |d.medicaments| > 0 && d.cause != ""
  }

  /** `medicaments.filter((_, i) => i !== index)`, position by position. */
  function WithoutIndex(s: seq<string>, index: int): (r: seq<string>)
    ensures |r| <= |s|
    decreases |s|
  {
    if s == [] then []
    else
      var rest := WithoutIndex(s[..|s| - 1], index);
      if |s| - 1 == index then rest else rest + [s[|s| - 1]]
  }

  /** Removing a listed position deletes exactly that medication and keeps
      the others in order; any other index changes nothing. */
  lemma {:induction false} WithoutIndexSpec(s: seq<string>, index: int)
    ensures 0 <= index < |s| ==> WithoutIndex(s, index) == s[..index] + s[index + 1..]
    ensures !(0 <= index < |s|) ==> WithoutIndex(s, index) == s
  {
    if s != [] {
      var init := s[..|s| - 1];
      WithoutIndexSpec(init, index);
      if index == |s| - 1 {
        assert s[..index] + s[index + 1..] == init;
      } else if 0 <= index < |s| - 1 {
        assert init[..index] + init[index + 1..] + [s[|s| - 1]] == s[..index] + s[index + 1..];
      } else {
        assert init + [s[|s| - 1]] == s;
      }
    }
  }

  class HistoryModal {
    var selected: Option<Appointment>
    var details: Details
    var currentMedicament: string
    var isSubmitting: bool
    var appointmentDetails: map<string, Details>
    var requests: seq<DetailsRequest>
    var toast: Option<Toast>

    constructor ()
      ensures selected.None? && details == EmptyDetails && currentMedicament == "" && !isSubmitting
      ensures appointmentDetails == map[] && requests == [] && toast.None?
    {
      selected := None;
      details := EmptyDetails;
      currentMedicament := "";
      isSubmitting := false;
      appointmentDetails := map[];
      requests := [];
      toast := None;
    }

    /** The "add details" action is offered for a completed appointment
        without recorded details. */
    predicate CanAddDetails(a: Appointment)
      reads this
    {
      a.status == Completed && a.id !in appointmentDetails
    }

    method ChooseAppointment(a: Appointment)
      requires CanAddDetails(a)
      modifies this`selected
      ensures selected == Some(a)
    {
      selected := Some(a);
    }

    /** `handleAddMedicament`: a non-blank entry is appended trimmed and the
        input cleared; a blank one changes nothing. */
    method AddMedicament()
      modifies this`details, this`currentMedicament
      ensures IsBlank(old(currentMedicament)) ==>
        details == old(details) && currentMedicament == old(currentMedicament)
      ensures !IsBlank(old(currentMedicament)) ==>
        && details == old(details).(medicaments := old(details).medicaments + [Trim(old(currentMedicament))])
        && currentMedicament == ""
        && !IsBlank(details.medicaments[|details.medicaments| - 1])
    {
      if !IsBlank(currentMedicament) {
        var entry := Trim(currentMedicament);
        TrimNotBlank(currentMedicament);
        details := details.(medicaments := details.medicaments + [entry]);
        currentMedicament := "";
      }
    }

    /** `handleRemoveMedicament`. */
    method RemoveMedicament(index: int)
      modifies this`details
      ensures details == old(details).(medicaments := WithoutIndex(old(details).medicaments, index))
    {
      details := details.(medicaments := WithoutIndex(details.medicaments, index));
    }

    /** `handleSubmitDetails`: an incomplete form is refused before anything
        else; without a token nothing is sent; on success the returned
        details are recorded for the appointment, the form reset and the
        selection cleared; the submitting flag ends false once raised. */
    method SubmitDetails(appointmentId: string, token: Option<string>, response: Response<Details>)
      modifies this`selected, this`details, this`isSubmitting, this`appointmentDetails, this`requests, this`toast
      ensures !Complete(old(details)) ==>
        && toast == Some(ErrorToast(FillAllFields)) && requests == old(requests)
        && selected == old(selected) && details == old(details) && isSubmitting == old(isSubmitting)
        && appointmentDetails == old(appointmentDetails)
      ensures Complete(old(details)) ==> !isSubmitting
      ensures Complete(old(details)) && (token.None? || token.value == "") ==>
        && toast == Some(ErrorToast(TokenMissing)) && requests == old(requests)
        && selected == old(selected) && details == old(details) && appointmentDetails == old(appointmentDetails)
      ensures Complete(old(details)) && token.Some? && token.value != "" ==>
        requests == old(requests) + [DetailsRequest(appointmentId, old(details))]
      ensures Complete(old(details)) && token.Some? && token.value != "" && response.Ok? ==>
        && appointmentDetails == old(appointmentDetails)[appointmentId := response.payload]
        && details == EmptyDetails && selected.None? && toast == Some(SuccessToast(AddSucceeded))
      ensures Complete(old(details)) && token.Some? && token.value != "" && response.Failed? ==>
        && appointmentDetails == old(appointmentDetails) && details == old(details) && selected == old(selected)
        && toast == Some(ErrorToast(if response.message != "" then response.message else AddFailed))
    {
      if details.tarif == 0.0 || |details.medicaments| == 0 || details.cause == "" {
        toast := Some(ErrorToast(FillAllFields));
        return;
      }
      isSubmitting := true;
      if token.None? || token.value == "" {
        toast := Some(ErrorToast(TokenMissing));
      } else {
        requests := requests + [DetailsRequest(appointmentId, details)];
        match response
        case Ok(saved) =>
          appointmentDetails := appointmentDetails[appointmentId := saved];
          details := EmptyDetails;
          selected := None;
          toast := Some(SuccessToast(AddSucceeded));
        case Failed(message) =>
          toast := Some(ErrorToast(if message != "" then message else AddFailed));
      }
      isSubmitting := false;
    }

    /** "Annuler": the form is reset and the selection cleared. */
    method Cancel()
      modifies this`selected, this`details
      ensures selected.None? && details == EmptyDetails
    {
      selected := None;
      details := EmptyDetails;
    }
  }

  /** A reset form cannot be sent as it is, so details are never recorded
      twice by repeated clicks. */
  lemma EmptyDetailsIncomplete()
    ensures !Complete(EmptyDetails)
  {
  }
}
