/** The vacancy list: which list is loaded for which role, the search and filter queries of
  * the employee, and the company selection of the filter panel. */
module VacancyList {
  import opened Wrappers
  import opened Json
  import opened Http
  import opened Web
  import Text
  import UrlCodec
  import Lists

  const LoadFailed := "Не удалось загрузить вакансии"
  const SearchFailed := "Не удалось выполнить поиск"
  const FilterFailed := "Не удалось применить фильтры"

  /** The list the page shows, its loading flag and its error text. */
  datatype View = View(vacancies: seq<Json>, loading: bool, error: string)

  /** The list after a load: an ok JSON reply replaces it (a non-array by the empty list); any
    * failure keeps it and shows `failed`. */
  function AfterLoad(view: View, answer: Answer, failed: string): (r: View)
    ensures !r.loading
    ensures OkJson(answer).Some? ==> r.vacancies == ArrayOrEmpty(OkJson(answer).value) && r.error == ""
    ensures OkJson(answer).None? ==> r.vacancies == view.vacancies && r.error == failed
  {
    match OkJson(answer)
    case Some(data) => View(ArrayOrEmpty(data), false, "")
    case None => View(view.vacancies, false, failed)
  }

  /** The request of `loadInitialVacancies`: a company sees its own vacancies, everyone else
    * all of them. */
  function InitialCall(role: Option<Json>, login: Option<Json>): (c: Call)
    ensures role == Some(JStr(RoleCompany)) ==>
              c == Call("/api/vacancy/company", Options("GET", map["X_User_Login" := Interp(login), "X_User_Role" := RoleCompany], NoBody))
    ensures role != Some(JStr(RoleCompany)) ==> c == Call("/api/vacancies", NoOptions)
  {
    if role == Some(JStr(RoleCompany)) then
      Call("/api/vacancy/company", Options("GET", map["X_User_Login" := Interp(login), "X_User_Role" := Interp(role)], NoBody))
    else Call("/api/vacancies", Options("GET", map[], NoBody))
  }

  /** `loadInitialVacancies(role, login)`. */
  method LoadInitialVacancies(role: Option<Json>, login: Option<Json>, view: View, answer: Answer)
    returns (next: View, call: Call)
    ensures call == InitialCall(role, login)
    ensures next == AfterLoad(view, answer, LoadFailed)
  {
    next := view.(loading := true, error := "");
    if role == Some(JStr(RoleCompany)) {
      call := Call("/api/vacancy/company", Options("GET", map["X_User_Login" := Interp(login), "X_User_Role" := Interp(role)], NoBody));
    } else {
      call := Call("/api/vacancies", Options("GET", map[], NoBody));
    }
    if answer.Failure? || !answer.value.Ok() || answer.value.json.None? {
      next := next.(error := LoadFailed);
    } else {
      next := next.(vacancies := ArrayOrEmpty(answer.value.json.value));
    }
    next := next.(loading := false);
  }

  /** The company list of the filter panel, loaded for employees only; a failure keeps it. */
  method LoadCompanies(role: Option<Json>, companies: seq<Json>, answer: Answer) returns (next: seq<Json>, calls: seq<Call>)
    ensures role != Some(JStr(RoleEmployee)) ==> calls == [] && next == companies
    ensures role == Some(JStr(RoleEmployee)) ==>
              calls == [Call("/api/vacancies/company", Options("GET", map["X_User_Role" := RoleEmployee], NoBody))]
    ensures role == Some(JStr(RoleEmployee)) && OkJson(answer).Some? ==> next == ArrayOrEmpty(OkJson(answer).value)
    ensures OkJson(answer).None? ==> next == companies
  {
    next := companies;
    calls := [];
    if role != Some(JStr(RoleEmployee)) {
      return;
    }
    calls := [Call("/api/vacancies/company", Options("GET", map["X_User_Role" := Interp(role)], NoBody))];
    if answer.Success? && answer.value.Ok() && answer.value.json.Some? {
      next := ArrayOrEmpty(answer.value.json.value);
    }
  }

  /** The search and filter inputs, and the companies picked in the filter panel. */
  datatype Filters = Filters(searchTitle: string, income: string, busy: string, workSchedule: string, workType: string,
                             minExperience: string, maxExperience: string, minWorkingHours: string, maxWorkingHours: string,
                             selected: seq<Json>)

  const NoFilters := Filters("", "", "", "", "", "", "", "", "", [])

  /** `handleSearch`: employees only; a blank title reloads the initial list, any other title
    * is searched for, trimmed. */
  method Search(role: Option<Json>, login: Option<Json>, filters: Filters, view: View, answer: Answer)
    returns (next: View, calls: seq<Call>)
    ensures role != Some(JStr(RoleEmployee)) ==> calls == [] && next == view
    ensures role == Some(JStr(RoleEmployee)) && Text.IsBlank(filters.searchTitle) ==>
              calls == [InitialCall(role, login)] && next == AfterLoad(view, answer, LoadFailed)
    ensures role == Some(JStr(RoleEmployee)) && !Text.IsBlank(filters.searchTitle) ==>
              && calls == [Call("/api/vacancies/search?" + UrlCodec.Serialize([("title", Text.Trim(filters.searchTitle))]),
                                Options("GET", map["X_User_Role" := RoleEmployee], NoBody))]
              && next == AfterLoad(view, answer, SearchFailed)
  {
    if role != Some(JStr(RoleEmployee)) {
      return view, [];
    }
    if Text.Trim(filters.searchTitle) == "" {
      var call;
      next, call := LoadInitialVacancies(role, login, view, answer);
      return next, [call];
    }
    next := view.(loading := true, error := "");
    var params := [("title", Text.Trim(filters.searchTitle))];
    calls := [Call("/api/vacancies/search?" + UrlCodec.Serialize(params), Options("GET", map["X_User_Role" := Interp(role)], NoBody))];
    if answer.Failure? || !answer.value.Ok() || answer.value.json.None? {
      next := next.(error := SearchFailed);
    } else {
      next := next.(vacancies := ArrayOrEmpty(answer.value.json.value));
    }
    next := next.(loading := false);
  }

  /** One `companyIds` pair per selected company, in selection order. */
  function CompanyIdParams(ids: seq<Json>): (r: seq<(string, string)>)
    ensures |r| == |ids|
    ensures forall i :: 0 <= i < |r| ==> r[i] == ("companyIds", ToJsString(ids[i]))
    ensures forall p :: p in r ==> p.0 == "companyIds"
  {
    if ids == [] then [] else [("companyIds", ToJsString(ids[0]))] + CompanyIdParams(ids[1..])
  }

  /** The fields the filter panel offers, in the order they are appended (`income` trimmed). */
  function FieldPairs(f: Filters): seq<(string, string)> {
    [("income", Text.Trim(f.income))] + [("busy", f.busy)] + [("workSchedule", f.workSchedule)] + [("workType", f.workType)]
    + [("minExperience", f.minExperience)] + [("maxExperience", f.maxExperience)]
    + [("minWorkingHours", f.minWorkingHours)] + [("maxWorkingHours", f.maxWorkingHours)]
  }

  /** The filter parameters: the non-empty fields, then the selected companies. */
  function FilterParams(f: Filters): seq<(string, string)> {
    UrlCodec.NonEmptyPairs(FieldPairs(f)) + CompanyIdParams(f.selected)
  }

  /** `if (value) params.append(name, value)`. */
  method AppendIfPresent(params: seq<(string, string)>, ghost done: seq<(string, string)>, name: string, value: string)
    returns (r: seq<(string, string)>)
    requires params == UrlCodec.NonEmptyPairs(done)
    ensures r == UrlCodec.NonEmptyPairs(done + [(name, value)])
  {
    UrlCodec.NonEmptyPairsSnoc(done, (name, value));
    r := params;
    if value != "" {
      r := r + [(name, value)];
    }
  }

  /** The field parameters, appended one `if` at a time. */
  method BuildFieldParams(f: Filters) returns (params: seq<(string, string)>)
    ensures params == UrlCodec.NonEmptyPairs(FieldPairs(f))
  {
    params := [];
    var income := Text.Trim(f.income);
    ghost var done := [];
    params := AppendIfPresent(params, done, "income", income);
    done := done + [("income", income)];
    params := AppendIfPresent(params, done, "busy", f.busy);
    done := done + [("busy", f.busy)];
    params := AppendIfPresent(params, done, "workSchedule", f.workSchedule);
    done := done + [("workSchedule", f.workSchedule)];
    params := AppendIfPresent(params, done, "workType", f.workType);
    done := done + [("workType", f.workType)];
    params := AppendIfPresent(params, done, "minExperience", f.minExperience);
    done := done + [("minExperience", f.minExperience)];
    params := AppendIfPresent(params, done, "maxExperience", f.maxExperience);
    done := done + [("maxExperience", f.maxExperience)];
    params := AppendIfPresent(params, done, "minWorkingHours", f.minWorkingHours);
    done := done + [("minWorkingHours", f.minWorkingHours)];
    params := AppendIfPresent(params, done, "maxWorkingHours", f.maxWorkingHours);
    done := done + [("maxWorkingHours", f.maxWorkingHours)];
    assert done == FieldPairs(f);
  }

  /** The parameters of `handleApplyFilters`: the fields, then one pair per selected company. */
  method BuildFilterParams(f: Filters) returns (params: seq<(string, string)>)
    ensures params == FilterParams(f)
  {
    params := BuildFieldParams(f);
    ghost var fixed := params;
    for i := 0 to |f.selected|
      invariant params == fixed + CompanyIdParams(f.selected[..i])
    {
      assert f.selected[..i + 1] == f.selected[..i] + [f.selected[i]];
      CompanyIdParamsAppend(f.selected[..i], f.selected[i]);
      params := params + [("companyIds", ToJsString(f.selected[i]))];
    }
    assert f.selected[..|f.selected|] == f.selected;
  }

  /** One `if (value) params.append(name, value)` extends the filtered prefix by one candidate. */
  lemma {:induction false} CompanyIdParamsAppend(ids: seq<Json>, id: Json)
    ensures CompanyIdParams(ids + [id]) == CompanyIdParams(ids) + [("companyIds", ToJsString(id))]
  {
    if ids != [] {
      assert (ids + [id])[1..] == ids[1..] + [id];
      CompanyIdParamsAppend(ids[1..], id);
    } else {
      assert [id][1..] == [];
    }
  }

  /** A field's pair is sent exactly when the field is non-empty. */
  lemma FilterParamsFields(f: Filters)
    ensures forall p :: p in FieldPairs(f) ==> (p in FilterParams(f) <==> p.1 != "")
  {
    UrlCodec.NonEmptyPairsMembers(FieldPairs(f));
    forall p | p in FieldPairs(f) ensures p !in CompanyIdParams(f.selected) {
      FieldPairNames(f, p);
    }
  }

  lemma FieldPairNames(f: Filters, p: (string, string))
    requires p in FieldPairs(f)
    ensures p.0 != "companyIds"
  {
  }

  /** The non-empty fields come first, and the selected companies follow, one pair each in
    * selection order. */
  lemma FilterParamsOrder(f: Filters)
    ensures var ps := FilterParams(f);
            && |ps| >= |f.selected|
            && (forall i :: 0 <= i < |ps| - |f.selected| ==> ps[i] in FieldPairs(f) && ps[i].1 != "")
            && ps[|ps| - |f.selected|..] == CompanyIdParams(f.selected)
  {
    var fixed := UrlCodec.NonEmptyPairs(FieldPairs(f));
    UrlCodec.NonEmptyPairsMembers(FieldPairs(f));
    var ps := FilterParams(f);
    assert ps[|fixed|..] == CompanyIdParams(f.selected);
    forall i | 0 <= i < |fixed| ensures ps[i] in FieldPairs(f) && ps[i].1 != "" {
      assert ps[i] == fixed[i] && fixed[i] in fixed;
    }
  }

  /** Nothing is sent exactly when every field is empty and no company is selected. */
  lemma FilterParamsEmpty(f: Filters)
    ensures FilterParams(f) == [] <==> (forall p :: p in FieldPairs(f) ==> p.1 == "") && f.selected == []
  {
    UrlCodec.NonEmptyPairsMembers(FieldPairs(f));
  }

  /** The filter request: `/api/vacancies` with no role header when nothing is filtered, the
    * filter endpoint with the role header otherwise. */
  function FilterCall(role: Option<Json>, params: seq<(string, string)>): (c: Call)
    ensures params == [] ==> c == Call("/api/vacancies", NoOptions)
    ensures params != [] ==> c == Call("/api/vacancies/filter?" + UrlCodec.Serialize(params),
                                       Options("GET", map["X_User_Role" := Interp(role)], NoBody))
  {
    var qs := UrlCodec.Serialize(params);
    var url := if qs != "" then "/api/vacancies/filter?" + qs else "/api/vacancies";
    if Text.StartsWith(url, "/api/vacancies/filter") then Call(url, Options("GET", map["X_User_Role" := Interp(role)], NoBody))
    else Call(url, Options("GET", map[], NoBody))
  }

  /** `handleApplyFilters`: employees only. */
  method ApplyFilters(role: Option<Json>, filters: Filters, view: View, answer: Answer) returns (next: View, calls: seq<Call>)
    ensures role != Some(JStr(RoleEmployee)) ==> calls == [] && next == view
    ensures role == Some(JStr(RoleEmployee)) ==>
              calls == [FilterCall(role, FilterParams(filters))] && next == AfterLoad(view, answer, FilterFailed)
  {
    if role != Some(JStr(RoleEmployee)) {
      return view, [];
    }
    next := view.(loading := true, error := "");
    var params := BuildFilterParams(filters);
    var qs := UrlCodec.Serialize(params);
    var url := if qs != "" then "/api/vacancies/filter?" + qs else "/api/vacancies";
    var options := if Text.StartsWith(url, "/api/vacancies/filter")
                   then Options("GET", map["X_User_Role" := Interp(role)], NoBody)
                   else Options("GET", map[], NoBody);
    calls := [Call(url, options)];
    if answer.Failure? || !answer.value.Ok() || answer.value.json.None? {
      next := next.(error := FilterFailed);
    } else {
      next := next.(vacancies := ArrayOrEmpty(answer.value.json.value));
    }
    next := next.(loading := false);
  }

  /** `handleResetFilters`: every field and the selection cleared, then the initial list. */
  method ResetFilters(role: Option<Json>, login: Option<Json>, view: View, answer: Answer)
    returns (filters: Filters, next: View, call: Call)
    ensures filters == NoFilters
    ensures call == InitialCall(role, login) && next == AfterLoad(view, answer, LoadFailed)
  {
    filters := NoFilters;
    next, call := LoadInitialVacancies(role, login, view, answer);
  }

  /** The label of the company picker. */
  function SelectedCompaniesText(selected: seq<Json>, companies: seq<Json>): (r: string)
    ensures selected == [] ==> r == "Выберите компании"
    ensures |selected| >= 2 ==> r == "Выбрано: " + Text.NatToString(|selected|)
    ensures |selected| == 1 ==>
              var found := FindById(companies, Some(selected[0]));
              var name := if found.Some? then Get(found.value, "name") else None;
              && (Truthy(name) ==> r == ToJsString(name.value))
              && (!Truthy(name) ==> r == "1 компания выбрана")
    ensures |selected| == 1 && FindById(companies, Some(selected[0])).None? ==> r == "1 компания выбрана"
  {
    if |selected| == 0 then "Выберите компании"
    else if |selected| == 1 then
      var c := FindById(companies, Some(selected[0]));
      ToJsString(OrText(if c.Some? then Get(c.value, "name") else None, "1 компания выбрана"))
    else "Выбрано: " + Text.NatToString(|selected|)
  }
}
