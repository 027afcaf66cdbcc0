/** The patient's doctor search: the list of doctors narrowed by a name
    query and a chosen specialty. */
module DoctorSearch {
  import opened Strings

  /** The specialties offered as filters. */
  const Specialties: seq<string> :=
    ["Dentiste", "Generaliste", "Cardiologue", "Dermatologue", "Pédiatre", "Ophtalmologue", "Orthopédiste", "ORL"]

  datatype Doctor = Doctor(id: string, firstName: string, lastName: string, speciality: string)

  /** The query occurs, ignoring case, in the first or the last name. */
  predicate MatchesSearch(d: Doctor, query: string) {
    Contains(ToLower(d.firstName), ToLower(query)) || Contains(ToLower(d.lastName), ToLower(query))
  }

  /** No specialty is chosen, or the doctor's equals it ignoring case. */
  predicate MatchesSpecialty(d: Doctor, specialty: string) {
    specialty == "" || ToLower(d.speciality) == ToLower(specialty)
  }

  predicate Kept(d: Doctor, query: string, specialty: string) {
    MatchesSearch(d, query) && MatchesSpecialty(d, specialty)
  }

  /** `filteredDoctors`. */
  function FilteredDoctors(doctors: seq<Doctor>, query: string, specialty: string): (r: seq<Doctor>)
    ensures SubsequenceOf(r, doctors)
    ensures forall d :: d in r <==> d in doctors && Kept(d, query, specialty)
    ensures forall d :: Kept(d, query, specialty) ==> multiset(r)[d] == multiset(doctors)[d]
    ensures forall d :: !Kept(d, query, specialty) ==> multiset(r)[d] == 0
  {
    if doctors == [] then []
    else
      var rest := FilteredDoctors(doctors[1..], query, specialty);
      assert doctors == [doctors[0]] + doctors[1..];
      if Kept(doctors[0], query, specialty) then
        assert ([doctors[0]] + rest)[1..] == rest;
        [doctors[0]] + rest
      else rest
  }

  /** With an empty query and no specialty, every doctor is listed. */
  lemma {:induction false} NoFilterKeepsAll(doctors: seq<Doctor>)
    ensures FilteredDoctors(doctors, "", "") == doctors
  {
    if doctors != [] {
      ContainsEmpty(ToLower(doctors[0].firstName));
      NoFilterKeepsAll(doctors[1..]);
    }
  }

  /** The search ignores case: a lower-cased query lists the same doctors. */
  lemma {:induction false} QueryCaseIgnored(doctors: seq<Doctor>, query: string, specialty: string)
    ensures FilteredDoctors(doctors, ToLower(query), specialty) == FilteredDoctors(doctors, query, specialty)
  {
    ToLowerIdempotent(query);
    if doctors != [] {
      QueryCaseIgnored(doctors[1..], query, specialty);
    }
  }

  /** Filtering the filtered list again changes nothing. */
  lemma {:induction false} FilterIdempotent(doctors: seq<Doctor>, query: string, specialty: string)
    ensures FilteredDoctors(FilteredDoctors(doctors, query, specialty), query, specialty)
            == FilteredDoctors(doctors, query, specialty)
  {
    if doctors != [] {
      FilterIdempotent(doctors[1..], query, specialty);
      var rest := FilteredDoctors(doctors[1..], query, specialty);
      if Kept(doctors[0], query, specialty) {
        assert ([doctors[0]] + rest)[1..] == rest;
      }
    }
  }
}
