/** The page of one vacancy: its load, the check whether the employee has already responded,
  * the respond button and who can edit. */
module VacancyDetails {
  import opened Wrappers
  import opened Json
  import opened Http
  import opened Web

  const LoadFailed := "Не удалось загрузить вакансию"
  const OnlyEmployees := "Только работник может откликнуться на вакансию"
  const NotLoaded := "Вакансия ещё не загружена"
  const SendRejected := "Не удалось отправить отклик"
  const SendFailed := "Ошибка при отправке отклика"
  const Sent := "Отклик успешно отправлен!"

  /** The page state: the vacancy (`None` until loaded), the loading flag, the error text,
    * whether the employee has already responded, and the flag of the respond request. */
  datatype Details = Details(vacancy: Option<Json>, loading: bool, error: string, alreadyResponded: bool, respondLoading: bool)

  const Initial := Details(None, true, "", false, false)

  /** `load`: the vacancy of the route, or the load error. */
  method Load(id: string, page: Details, answer: Answer) returns (next: Details, call: Call)
    ensures call == Call("/api/vacancies/" + id, Options("GET", map[], NoBody))
    ensures OkJson(answer).Some? ==> next == page.(vacancy := OkJson(answer), loading := false)
    ensures OkJson(answer).None? ==> next == page.(error := LoadFailed, loading := false)
  {
    call := Call("/api/vacancies/" + id, Options("GET", map[], NoBody));
    next := page;
    if answer.Success? && answer.value.Ok() && answer.value.json.Some? {
      next := next.(vacancy := answer.value.json);
    } else {
      next := next.(error := LoadFailed);
    }
    next := next.(loading := false);
  }

  /** One entry of the employee's responses that blocks a new one: same vacancy, and not
    * rejected. `vacId` is `Number(id)`, `None` for `NaN`, which equals nothing. */
  predicate Blocks(r: Json, vacId: Option<int>) {
    vacId.Some? && StrictEquals(Get(r, "vacancyId"), Some(JNum(vacId.value)))
    && (Get(r, "status") == Some(JStr("PENDING")) || Get(r, "status") == Some(JStr("APPROVED")))
  }

  /** `list.some(r => ...)`. */
  function AnyBlocks(items: seq<Json>, vacId: Option<int>): (r: bool)
    ensures r <==> exists i :: 0 <= i < |items| && Blocks(items[i], vacId)
  {
    if items == [] then false
    else if Blocks(items[0], vacId) then true
    else
      assert forall i :: 1 <= i < |items| ==> items[i] == items[1..][i - 1];
      AnyBlocks(items[1..], vacId)
  }

  /** `Array.isArray(list) && list.some(...)`: the employee has responded exactly when the list
    * is an array holding a pending or approved response to this vacancy. */
  function Responded(list: Json, vacId: Option<int>): (r: bool)
    ensures r <==> list.JArr? && exists i :: 0 <= i < |list.items| && Blocks(list.items[i], vacId)
  {
    list.JArr? && AnyBlocks(list.items, vacId)
  }

  /** A rejected response never blocks. */
  lemma RejectedNeverBlocks(r: Json, vacId: Option<int>)
    requires Get(r, "status") == Some(JStr("REJECTED"))
    ensures !Blocks(r, vacId)
  {
  }

  /** `checkResponse`: employees only; a failed check leaves the flag as it was. */
  method CheckResponse(user: Option<Json>, vacId: Option<int>, page: Details, answer: Answer)
    returns (next: Details, calls: seq<Call>)
    ensures !HasRole(user, RoleEmployee) ==> calls == [] && next == page
    ensures HasRole(user, RoleEmployee) ==>
              calls == [Call("/api/responses/employee", Options("GET", map["X-User-Login" := Interp(Prop(user, "login"))], NoBody))]
    ensures HasRole(user, RoleEmployee) && OkJson(answer).None? ==> next == page
    ensures HasRole(user, RoleEmployee) && OkJson(answer).Some? ==>
              next == page.(alreadyResponded := Responded(OkJson(answer).value, vacId))
  {
    next := page;
    calls := [];
    if !Truthy(user) || Prop(user, "role") != Some(JStr(RoleEmployee)) {
      return;
    }
    calls := [Call("/api/responses/employee", Options("GET", map["X-User-Login" := Interp(Prop(user, "login"))], NoBody))];
    if answer.Failure? || !answer.value.Ok() || answer.value.json.None? {
      return;
    }
    var list := answer.value.json.value;
    var has := list.JArr? && AnyBlocks(list.items, vacId);
    next := next.(alreadyResponded := has);
  }

  /** The body of a response: the vacancy's id and its company's id. */
  function ResponseBody(vacancy: Option<Json>): Json {
    ObjectOf([("vacancyId", Prop(vacancy, "id")), ("companyId", Prop(vacancy, "companyId"))])
  }

  /** `handleRespond`: the guards run in order (already responded, not an employee, vacancy not
    * loaded) and none of them sends anything; a sent response sets the flag only when it is
    * accepted. */
  method Respond(user: Option<Json>, page: Details, answer: Answer) returns (next: Details, calls: seq<Call>, alert: Option<string>)
    ensures page.alreadyResponded ==> calls == [] && next == page && alert == None
    ensures !page.alreadyResponded && !HasRole(user, RoleEmployee) ==> calls == [] && next == page && alert == Some(OnlyEmployees)
    ensures !page.alreadyResponded && HasRole(user, RoleEmployee) && !Truthy(page.vacancy) ==>
              calls == [] && next == page && alert == Some(NotLoaded)
    ensures !page.alreadyResponded && HasRole(user, RoleEmployee) && Truthy(page.vacancy) ==>
              && calls == [Call("/api/responses", Options("POST", map["Content-Type" := "application/json", "X-User-Login" := Interp(Prop(user, "login"))],
                                                           JsonBody(ResponseBody(page.vacancy))))]
              && (answer.Success? && answer.value.Ok() ==> next == page.(error := "", alreadyResponded := true, respondLoading := false) && alert == Some(Sent))
              && (answer.Success? && !answer.value.Ok() ==> next == page.(error := SendRejected, respondLoading := false) && alert == None)
              && (answer.Failure? ==> next == page.(error := SendFailed, respondLoading := false) && alert == None)
  {
    next := page;
    calls := [];
    alert := None;
    if page.alreadyResponded {
      return;
    }
    if !Truthy(user) || Prop(user, "role") != Some(JStr(RoleEmployee)) {
      alert := Some(OnlyEmployees);
      return;
    }
    if !Truthy(page.vacancy) {
      alert := Some(NotLoaded);
      return;
    }
    next := next.(respondLoading := true, error := "");
    var body := ObjectOf([("vacancyId", Prop(page.vacancy, "id")), ("companyId", Prop(page.vacancy, "companyId"))]);
    calls := [Call("/api/responses", Options("POST", map["Content-Type" := "application/json", "X-User-Login" := Interp(Prop(user, "login"))], JsonBody(body)))];
    if answer.Failure? {
      next := next.(error := SendFailed);
    } else if !answer.value.Ok() {
      next := next.(error := SendRejected);
    } else {
      next := next.(alreadyResponded := true);
      alert := Some(Sent);
    }
    next := next.(respondLoading := false);
  }

  /** `canEdit`: the edit controls show for a company and for no one else. */
  predicate CanEdit(user: Option<Json>)
    ensures CanEdit(user) <==> HasRole(user, RoleCompany)
    ensures CanEdit(user) ==> Truthy(user) && !HasRole(user, RoleEmployee) && !HasRole(user, RoleAdmin)
  {
    Prop(user, "role") == Some(JStr(RoleCompany))
  }
}
