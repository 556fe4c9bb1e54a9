/** The second step of creating a vacancy: its description, sent as plain text for the vacancy
  * whose id the first step stored. */
module VacancyAdditional {
  import opened Wrappers
  import opened Json
  import opened Http
  import opened Web
  import ApiClient
  import Storage
  import VacancyNewBasic

  const TextMissing := "Добавьте описание вакансии"
  const TokenMissing := "Отсутствует токен авторизации. Перезайдите в систему."
  const SaveFailed := "Ошибка при сохранении описания вакансии"
  const NextStep := "/company/vacancies/new/photo"

  datatype AdditionalPage = AdditionalPage(text: string, loading: bool, error: string)

  /** The form shows only while a vacancy id is stored; without one the page is a notice. */
  predicate HasVacancy(entries: map<string, string>)
    ensures HasVacancy(entries) <==> (var item := Storage.Lookup(entries, VacancyNewBasic.CurrentVacancyKey);
                                      item.Some? && Truthy(Some(JStr(item.value))))
  {
    Storage.HasValue(entries, VacancyNewBasic.CurrentVacancyKey)
  }

  function SaveCall(vacancyId: string, text: string): Call {
    Call("/api/vacancy/additional-info/" + vacancyId,
         Options("POST", map["X_User_Role" := RoleCompany, "Content-Type" := "text/plain; charset=utf-8"], TextBody(text)))
  }

  /** `handleSubmit`: the text is checked before the token, and neither failure sends anything.
    * The text goes through the request client, whose token writes are the only change to
    * storage: the stored id is left for step 3. A refusal is explained by its body (see
    * `Web.BodyMessage`); a thrown error, the parse of the accepted reply included, is the
    * connection error. */
  method Submit(store: Storage.Store, server: Server, page: AdditionalPage) returns (next: AdditionalPage, calls: seq<Call>, nav: Nav)
    modifies store, server
    ensures next.text == page.text
    ensures !HasVacancy(old(store.entries)) ==>
              calls == [] && nav == Stay && next == page && store.entries == old(store.entries) && unchanged(server)
    ensures HasVacancy(old(store.entries)) && page.text == "" ==>
              calls == [] && nav == Stay && next == page.(error := TextMissing) && store.entries == old(store.entries) && unchanged(server)
    ensures HasVacancy(old(store.entries)) && page.text != "" && !Storage.HasValue(old(store.entries), ApiClient.TokenKey) ==>
              calls == [] && nav == Stay && next == page.(error := TokenMissing) && store.entries == old(store.entries) && unchanged(server)
    ensures HasVacancy(old(store.entries)) && page.text != "" && Storage.HasValue(old(store.entries), ApiClient.TokenKey) ==>
              var call := SaveCall(old(store.entries)[VacancyNewBasic.CurrentVacancyKey], page.text);
              var run := Fetched(old(store.entries), old(server.script), call);
              var answer := run.result;
              && calls == [call] && !next.loading && store.entries == run.entries
              && server.sent == old(server.sent) + run.sent && server.script == run.script
              && (answer.Failure? ==> next.error == ConnectionError && nav == Stay)
              && (answer.Success? && !answer.value.Ok() ==> next.error == BodyMessage(answer.value, SaveFailed) && nav == Stay)
              && (answer.Success? && answer.value.Ok() && answer.value.json.None? ==> next.error == ConnectionError && nav == Stay)
              && (OkJson(answer).Some? ==> next.error == "" && nav == GoTo(NextStep))
  {
    next := page;
    calls := [];
    nav := Stay;
    var vacancyId := store.Get(VacancyNewBasic.CurrentVacancyKey);
    if vacancyId.None? || vacancyId.value == "" {
      return;
    }
    next := next.(error := "");
    if page.text == "" {
      next := next.(error := TextMissing);
      return;
    }
    var token := store.Get("token");
    if token.None? || token.value == "" {
      next := next.(error := TokenMissing);
      return;
    }
    next := next.(loading := true);
    var call := SaveCall(vacancyId.value, page.text);
    calls := [call];
    var answer := ApiClient.ApiFetch(store, server, call.target, call.options, true);
    if answer.Failure? {
      next := next.(error := ConnectionError, loading := false);
      return;
    }
    var res := answer.value;
    if !res.Ok() {
      next := next.(error := BodyMessage(res, SaveFailed), loading := false);
      return;
    }
    if res.json.None? {
      next := next.(error := ConnectionError, loading := false);
      return;
    }
    next := next.(loading := false);
    nav := GoTo(NextStep);
  }
}
