/** The first step of creating a vacancy: its basic data, sent as a form; the id of the new
  * vacancy is kept in storage for the next steps. */
module VacancyNewBasic {
  import opened Wrappers
  import opened Json
  import opened Http
  import opened Web
  import opened VacancyForm
  import ApiClient
  import Storage

  const SaveFailed := "Ошибка при создании вакансии"

  /** The storage key the wizard carries the new vacancy's id in. */
  const CurrentVacancyKey := "th_current_vacancy_id"

  const NextStep := "/company/vacancies/new/additional"

  datatype NewBasic = NewBasic(fields: Fields, loading: bool, error: string)

  const Initial := NewBasic(Blank, false, "")

  /** Only a signed-in company sees the form; anyone else sees the denial and cannot submit. */
  predicate CanCreate(user: Option<Json>)
    ensures CanCreate(user) <==> HasRole(user, RoleCompany)
    ensures CanCreate(user) ==> !HasRole(user, RoleEmployee) && !HasRole(user, RoleAdmin)
  {
    Truthy(user) && HasRole(user, RoleCompany)
  }

  function CreateCall(user: Option<Json>, f: Fields): Call {
    Call("/api/vacancy", Options("POST", map["X_User_Login" := Interp(Prop(user, "login")), "X_User_Role" := Interp(Prop(user, "role"))],
                                 Form(AsFields(FormPairs(f)))))
  }

  /** `handleSubmit`: the first missing required field is reported and nothing is sent;
    * otherwise the form goes through the request client, whose token writes stay whatever the
    * page does. A refusal shows the server's message, a thrown error the connection error; an
    * accepted vacancy's id is stored when present, and the wizard always moves on. */
  method Submit(store: Storage.Store, server: Server, user: Option<Json>, page: NewBasic) returns (next: NewBasic, calls: seq<Call>, nav: Nav)
    modifies store, server
    ensures !CanCreate(user) ==> calls == [] && next == page && nav == Stay && store.entries == old(store.entries) && unchanged(server)
    ensures CanCreate(user) && FirstEmpty(Required(page.fields)).Some? ==>
              calls == [] && nav == Stay && store.entries == old(store.entries) && unchanged(server)
              && next == page.(error := FirstEmpty(Required(page.fields)).value)
    ensures CanCreate(user) && FirstEmpty(Required(page.fields)).None? ==>
              var run := Fetched(old(store.entries), old(server.script), CreateCall(user, page.fields));
              var answer := run.result;
              && calls == [CreateCall(user, page.fields)]
              && server.sent == old(server.sent) + run.sent && server.script == run.script
              && !next.loading && next.fields == page.fields
              && (answer.Success? && !answer.value.Ok() ==>
                    next.error == BodyMessage(answer.value, SaveFailed) && nav == Stay && store.entries == run.entries)
              && (OkJson(answer).None? && !(answer.Success? && !answer.value.Ok()) ==>
                    next.error == ConnectionError && nav == Stay && store.entries == run.entries)
              && (OkJson(answer) == Some(JNull) ==> next.error == ConnectionError && nav == Stay && store.entries == run.entries)
              && (OkJson(answer).Some? && OkJson(answer).value != JNull ==>
                    var id := Get(OkJson(answer).value, "id");
                    && next.error == "" && nav == GoTo(NextStep)
                    && store.entries == if Truthy(id) then run.entries[CurrentVacancyKey := ToJsString(id.value)] else run.entries)
  {
    next := page;
    calls := [];
    nav := Stay;
    if !Truthy(user) || Prop(user, "role") != Some(JStr(RoleCompany)) {
      return;
    }
    next := next.(error := "");
    var missing := Validate(page.fields);
    if missing.Some? {
      next := next.(error := missing.value);
      return;
    }
    next := next.(loading := true);
    var pairs := BuildForm(page.fields);
    var call := Call("/api/vacancy", Options("POST", map["X_User_Login" := Interp(Prop(user, "login")), "X_User_Role" := Interp(Prop(user, "role"))],
                                             Form(AsFields(pairs))));
    calls := [call];
    var answer := ApiClient.ApiFetch(store, server, call.target, call.options, true);
    if answer.Failure? {
      next := next.(error := ConnectionError, loading := false);
      return;
    }
    var res := answer.value;
    if !res.Ok() {
      next := next.(error := BodyMessage(res, SaveFailed), loading := false);
      return;
    }
    if res.json.None? || res.json.value == JNull {
      next := next.(error := ConnectionError, loading := false);
      return;
    }
    var id := Get(res.json.value, "id");
    if Truthy(id) {
      store.Set(CurrentVacancyKey, ToJsString(id.value));
    }
    next := next.(loading := false);
    nav := GoTo(NextStep);
  }
}
