/** The last step of creating a vacancy: its cover photo; a stored photo ends the wizard and
  * forgets the vacancy id. */
module VacancyPhoto {
  import opened Wrappers
  import opened Json
  import opened Http
  import opened Web
  import ApiClient
  import Storage
  import VacancyAdditional
  import VacancyNewBasic

  const FileMissing := "Выберите файл для загрузки"
  const UploadFailed := "Ошибка при загрузке обложки вакансии"
  const DonePath := "/vacancies"

  datatype PhotoPage = PhotoPage(file: Option<string>, loading: bool, error: string)

  function UploadCall(vacancyId: string, fileName: string): Call {
    Call("/api/vacancy/listing-photo/" + vacancyId, Options("POST", map["X_User_Role" := RoleCompany], Form([("file", Upload(fileName))])))
  }

  /** `handleSubmit`: the file is checked before the token, and neither failure sends anything.
    * The upload goes through the request client, whose token writes stay whatever the page
    * does. Only an accepted upload whose reply reads as JSON then removes the stored id (the
    * other entries stay) and goes to the vacancies; every failure keeps the id, so the step can
    * be repeated. */
  method Submit(store: Storage.Store, server: Server, page: PhotoPage) returns (next: PhotoPage, calls: seq<Call>, nav: Nav)
    modifies store, server
    ensures next.file == page.file
    ensures !VacancyAdditional.HasVacancy(old(store.entries)) ==>
              calls == [] && nav == Stay && next == page && store.entries == old(store.entries) && unchanged(server)
    ensures VacancyAdditional.HasVacancy(old(store.entries)) && page.file.None? ==>
              calls == [] && nav == Stay && next == page.(error := FileMissing) && store.entries == old(store.entries) && unchanged(server)
    ensures VacancyAdditional.HasVacancy(old(store.entries)) && page.file.Some? && !Storage.HasValue(old(store.entries), ApiClient.TokenKey) ==>
              calls == [] && nav == Stay && next == page.(error := VacancyAdditional.TokenMissing)
              && store.entries == old(store.entries) && unchanged(server)
    ensures VacancyAdditional.HasVacancy(old(store.entries)) && page.file.Some? && Storage.HasValue(old(store.entries), ApiClient.TokenKey) ==>
              var call := UploadCall(old(store.entries)[VacancyNewBasic.CurrentVacancyKey], page.file.value);
              var run := Fetched(old(store.entries), old(server.script), call);
              var answer := run.result;
              && calls == [call] && !next.loading
              && server.sent == old(server.sent) + run.sent && server.script == run.script
              && (OkJson(answer).None? ==> nav == Stay && store.entries == run.entries)
              && (answer.Failure? ==> next.error == ConnectionError)
              && (answer.Success? && !answer.value.Ok() ==> next.error == BodyMessage(answer.value, UploadFailed))
              && (answer.Success? && answer.value.Ok() && answer.value.json.None? ==> next.error == ConnectionError)
              && (OkJson(answer).Some? ==>
                    next.error == "" && nav == GoTo(DonePath)
                    && store.entries == run.entries - {VacancyNewBasic.CurrentVacancyKey})
  {
    next := page;
    calls := [];
    nav := Stay;
    var vacancyId := store.Get(VacancyNewBasic.CurrentVacancyKey);
    if vacancyId.None? || vacancyId.value == "" {
      return;
    }
    next := next.(error := "");
    if page.file.None? {
      next := next.(error := FileMissing);
      return;
    }
    var token := store.Get("token");
    if token.None? || token.value == "" {
      next := next.(error := VacancyAdditional.TokenMissing);
      return;
    }
    next := next.(loading := true);
    var call := UploadCall(vacancyId.value, page.file.value);
    calls := [call];
    var answer := ApiClient.ApiFetch(store, server, call.target, call.options, true);
    if answer.Failure? {
      next := next.(error := ConnectionError, loading := false);
      return;
    }
    var res := answer.value;
    if !res.Ok() {
      next := next.(error := BodyMessage(res, UploadFailed), loading := false);
      return;
    }
    if res.json.None? {
      next := next.(error := ConnectionError, loading := false);
      return;
    }
    next := next.(loading := false);
    store.Remove(VacancyNewBasic.CurrentVacancyKey);
    nav := GoTo(DonePath);
  }
}
