/** Editing a vacancy's basic data: the load that fills the form and the update it sends. */
module VacancyEditBasic {
  import opened Wrappers
  import opened Json
  import opened Http
  import opened Web
  import opened VacancyForm
  import ApiClient
  import Text

  const OnlyCompany := "Только компания может редактировать вакансию"
  const LoadFailed := "Не удалось загрузить вакансию"
  const UpdateFailed := "Ошибка обновления вакансии"
  const SaveFailed := "Не удалось сохранить изменения"

  datatype EditBasic = EditBasic(fields: Fields, loading: bool, saving: bool, error: string)

  const Initial := EditBasic(Blank, true, false, "")

  function VacancyPath(id: string): string {
    "/api/vacancy/" + id
  }

  function Headers(user: Option<Json>): map<string, string> {
    map["X_User_Login" := Interp(Prop(user, "login")), "X_User_Role" := Interp(Prop(user, "role"))]
  }

  /** `v !== null && v !== undefined ? String(v) : ""`: zero and `false` are kept. */
  function NumberText(v: Option<Json>): (r: string)
    ensures v.None? || v == Some(JNull) ==> r == ""
    ensures v.Some? && v != Some(JNull) ==> r == ToJsString(v.value)
  {
    if v.None? || v == Some(JNull) then "" else ToJsString(v.value)
  }

  /** The form filled from the loaded vacancy. */
  function Loaded(data: Json): Fields {
    Fields(TextOr(Get(data, "title")), TextOr(Get(data, "incomeLevel")), TextOr(Get(data, "busy")),
           NumberText(Get(data, "experience")), TextOr(Get(data, "workSchedule")),
           NumberText(Get(data, "workingHours")), TextOr(Get(data, "workType")))
  }

  /** A vacancy with no experience required (zero) loads as "0" and is sent back as such, while
    * a missing one loads as "" and is left out of the update. */
  lemma ZeroExperienceKept(data: Json)
    requires Get(data, "experience") == Some(JNum(0))
    ensures Loaded(data).experience == "0"
    ensures Complete(Loaded(data)) ==> ("experience", "0") in FormPairs(Loaded(data))
  {
    assert Text.NatToString(0) == "0";
  }

  /** `load`: only a company loads the vacancy; any failure, a `null` body included, shows the
    * load error and leaves the form as it was. */
  method Load(user: Option<Json>, id: string, page: EditBasic, answer: Answer) returns (next: EditBasic, calls: seq<Call>)
    ensures !next.loading
    ensures !(Truthy(user) && HasRole(user, RoleCompany)) ==> calls == [] && next == page.(error := OnlyCompany, loading := false)
    ensures Truthy(user) && HasRole(user, RoleCompany) ==>
              && calls == [Call(VacancyPath(id), Options("GET", Headers(user), NoBody))]
              && (OkJson(answer).Some? && OkJson(answer).value != JNull ==> next == page.(fields := Loaded(OkJson(answer).value), loading := false))
              && (OkJson(answer).None? || OkJson(answer) == Some(JNull) ==> next == page.(error := LoadFailed, loading := false))
  {
    next := page;
    calls := [];
    if !Truthy(user) || Prop(user, "role") != Some(JStr(RoleCompany)) {
      next := next.(error := OnlyCompany, loading := false);
      return;
    }
    calls := [Call(VacancyPath(id), Options("GET", Headers(user), NoBody))];
    if answer.Failure? || !answer.value.Ok() || answer.value.json.None? || answer.value.json.value == JNull {
      next := next.(error := LoadFailed, loading := false);
      return;
    }
    var data := answer.value.json.value;
    var f := Blank;
    f := f.(title := TextOr(Get(data, "title")));
    f := f.(incomeLevel := TextOr(Get(data, "incomeLevel")));
    f := f.(busy := TextOr(Get(data, "busy")));
    f := f.(experience := NumberText(Get(data, "experience")));
    f := f.(workSchedule := TextOr(Get(data, "workSchedule")));
    f := f.(workingHours := NumberText(Get(data, "workingHours")));
    f := f.(workType := TextOr(Get(data, "workType")));
    next := next.(fields := f, loading := false);
  }

  /** `handleSubmit`: the same ordered checks as creation, then the update; only an accepted
    * update whose body reads as JSON goes back to the vacancy's page. */
  method Submit(user: Option<Json>, id: string, page: EditBasic, answer: Answer) returns (next: EditBasic, calls: seq<Call>, nav: Nav)
    ensures FirstEmpty(Required(page.fields)).Some? ==>
              calls == [] && nav == Stay && next == page.(error := FirstEmpty(Required(page.fields)).value)
    ensures FirstEmpty(Required(page.fields)).None? ==>
              && calls == [Call(VacancyPath(id), Options("PUT", Headers(user), Form(AsFields(FormPairs(page.fields)))))]
              && !next.saving && next.fields == page.fields
              && (nav != Stay <==> OkJson(answer).Some?)
              && (OkJson(answer).Some? ==> nav == GoTo("/vacancies/" + id) && next.error == "")
              && (answer.Failure? ==> next.error == ApiClient.Message(answer.error))
              && (answer.Success? && !answer.value.Ok() ==> next.error == OrElse(BodyMessage(answer.value, UpdateFailed), SaveFailed))
              && (answer.Success? && answer.value.Ok() && answer.value.json.None? ==> next.error == ParseFailed)
  {
    next := page;
    calls := [];
    nav := Stay;
    next := next.(error := "");
    var missing := Validate(page.fields);
    if missing.Some? {
      next := next.(error := missing.value);
      return;
    }
    next := next.(saving := true);
    var pairs := BuildForm(page.fields);
    calls := [Call(VacancyPath(id), Options("PUT", Headers(user), Form(AsFields(pairs))))];
    if answer.Failure? {
      next := next.(error := OrElse(ApiClient.Message(answer.error), SaveFailed));
    } else if !answer.value.Ok() {
      next := next.(error := OrElse(BodyMessage(answer.value, UpdateFailed), SaveFailed));
    } else if answer.value.json.None? {
      next := next.(error := OrElse(ParseFailed, SaveFailed));
    } else {
      nav := GoTo("/vacancies/" + id);
    }
    next := next.(saving := false);
  }
}
