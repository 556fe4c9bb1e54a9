/** The vacancy-creation wizard as a whole: the id the first step stores is what the later
  * steps send to, and the last step's success closes the wizard. */
module VacancyWizard {
  import opened Wrappers
  import opened Json
  import opened Web
  import Storage
  import Text
  import VacancyNewBasic
  import VacancyAdditional
  import VacancyPhoto

  /** A number or text id stored by the first step opens the later steps, and they address
    * that vacancy. */
  lemma IdCarried(entries: map<string, string>, id: Json)
    requires Truthy(Some(id)) && (id.JNum? || id.JStr?)
    ensures var e := entries[VacancyNewBasic.CurrentVacancyKey := ToJsString(id)];
            && VacancyAdditional.HasVacancy(e)
            && e[VacancyNewBasic.CurrentVacancyKey] == ToJsString(id)
            && VacancyAdditional.SaveCall(e[VacancyNewBasic.CurrentVacancyKey], "").target == "/api/vacancy/additional-info/" + ToJsString(id)
            && VacancyPhoto.UploadCall(e[VacancyNewBasic.CurrentVacancyKey], "").target == "/api/vacancy/listing-photo/" + ToJsString(id)
  {
  }

  /** After the last step the earlier ones show their notice again, and nothing else stored is
    * touched. */
  lemma FinishCloses(entries: map<string, string>)
    ensures !VacancyAdditional.HasVacancy(entries - {VacancyNewBasic.CurrentVacancyKey})
    ensures forall k :: k != VacancyNewBasic.CurrentVacancyKey ==>
              Storage.Lookup(entries - {VacancyNewBasic.CurrentVacancyKey}, k) == Storage.Lookup(entries, k)
  {
  }
}
