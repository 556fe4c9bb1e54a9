/** The company profile page: viewing a company by id, and a company editing its own profile,
  * which is kept in storage after a save. */
module CompanyProfile {
  import opened Wrappers
  import opened Json
  import opened Http
  import opened Web
  import ApiClient
  import Storage
  import Text

  const LoadFailed := "Не удалось загрузить профиль компании"
  const FetchFailed := "Failed to fetch"
  const FieldsMissing := "Заполните все поля"
  const SaveFailed := "Ошибка при сохранении профиля компании"
  const Saved := "Профиль компании успешно сохранён"

  /** What reading `name` of a `null` body throws (Chromium's text). */
  const NullData := "Cannot read properties of null (reading 'name')"

  /** The storage key of the company's own profile, a JSON text. */
  const ProfileKey := "company_profile"

  /** The only route on which the company edits its own profile. */
  const OwnEditPath := "/profile/company"

  datatype CompanyPage = CompanyPage(name: string, city: string, address: string, loading: bool, error: string,
                                     success: string, editMode: bool)

  /** `!!id`: a route with an id only views. */
  predicate ViewMode(id: Option<string>)
    ensures ViewMode(id) <==> id.Some? && Truthy(Some(JStr(id.value)))
  {
    id.Some? && id.value != ""
  }

  /** The state the page opens in: the stored profile's fields, and the form shown only on the
    * company's own edit route. */
  function Opened(stored: Option<Json>, pathname: string): (r: CompanyPage)
    ensures r.editMode <==> pathname == OwnEditPath
    ensures r.name == TextOr(Prop(stored, "name")) && r.city == TextOr(Prop(stored, "city")) && r.address == TextOr(Prop(stored, "address"))
    ensures !r.loading && r.error == "" && r.success == ""
  {
    CompanyPage(TextOr(Prop(stored, "name")), TextOr(Prop(stored, "city")), TextOr(Prop(stored, "address")), false, "", "",
                pathname == OwnEditPath)
  }

  /** Which view the guards leave: a sign-in prompt, the denial of editing, or the page. */
  datatype Access = NeedsLogin | OnlyCompanyEdits | Allowed

  /** The guards run in order: no user, then editing (no id) by anyone but a company. Viewing by
    * id is open to every signed-in role. */
  function AccessOf(user: Option<Json>, id: Option<string>): (r: Access)
    ensures r == NeedsLogin <==> !Truthy(user)
    ensures r == OnlyCompanyEdits <==> Truthy(user) && !ViewMode(id) && !HasRole(user, RoleCompany)
    ensures r == Allowed ==> ViewMode(id) || HasRole(user, RoleCompany)
  {
    if !Truthy(user) then NeedsLogin
    else if !ViewMode(id) && !HasRole(user, RoleCompany) then OnlyCompanyEdits
    else Allowed
  }

  /** The read-only view and the form: a route with an id never shows the form, and otherwise
    * exactly one of the two shows. */
  predicate ShowsView(page: CompanyPage, id: Option<string>)
    ensures ViewMode(id) ==> ShowsView(page, id)
    ensures !ViewMode(id) ==> (ShowsView(page, id) <==> !page.editMode)
  {
    !page.editMode || ViewMode(id)
  }

  predicate ShowsForm(page: CompanyPage, id: Option<string>)
    ensures ShowsForm(page, id) ==> page.editMode && !ShowsView(page, id)
    ensures !ViewMode(id) ==> (ShowsForm(page, id) <==> !ShowsView(page, id))
  {
    page.editMode && !ViewMode(id)
  }

  lemma ViewOrForm(page: CompanyPage, id: Option<string>)
    ensures ViewMode(id) ==> ShowsView(page, id) && !ShowsForm(page, id)
    ensures !ViewMode(id) ==> ShowsView(page, id) != ShowsForm(page, id)
  {
  }

  /** The edit button: only a company, and only outside the view by id. */
  predicate ShowsEditButton(user: Option<Json>, page: CompanyPage, id: Option<string>)
    ensures ShowsEditButton(user, page, id) <==> AccessOf(user, id) == Allowed && !ViewMode(id) && !page.editMode
    ensures ShowsEditButton(user, page, id) ==> ShowsView(page, id) && !ShowsForm(page, id)
  {
    ShowsView(page, id) && !ViewMode(id) && HasRole(user, RoleCompany)
  }

  /** The avatar: the name's first letter upper-cased, "C" without a name. */
  function Avatar(name: string): (r: string)
    ensures |r| == 1
    ensures name != "" ==> r == [Text.UpperChar(name[0])]
    ensures name == "" ==> r == "C"
  {
    Text.AvatarLetter(name, "C")
  }

  function ViewCall(companyId: int): Call {
    Call("/api/profile/employee/view/" + Text.IntToString(companyId), Options("GET", map[], NoBody))
  }

  /** `loadCompany`: only in view mode with a usable id (`companyId` is `Number(id)`, `None` for
    * `NaN`; zero counts as missing). The name falls back to `companyName`; a failure shows its
    * message. */
  method LoadCompany(id: Option<string>, companyId: Option<int>, page: CompanyPage, answer: Answer) returns (next: CompanyPage, calls: seq<Call>)
    ensures !ViewMode(id) || companyId.None? || companyId.value == 0 ==> calls == [] && next == page
    ensures ViewMode(id) && companyId.Some? && companyId.value != 0 ==>
              && calls == [ViewCall(companyId.value)]
              && !next.loading && next.success == "" && next.editMode == page.editMode
              && (ReadFailure(answer, LoadFailed).Some? ==>
                    next == page.(error := ReadFailure(answer, LoadFailed).value, success := "", loading := false))
              && (OkJson(answer) == Some(JNull) ==> next == page.(error := NullData, success := "", loading := false))
              && (OkJson(answer).Some? && OkJson(answer).value != JNull ==>
                    var data := OkJson(answer).value;
                    next == page.(name := TextOr(Or(Get(data, "name"), Get(data, "companyName"))), city := TextOr(Get(data, "city")),
                                  address := TextOr(Get(data, "address")), error := "", success := "", loading := false))
  {
    next := page;
    calls := [];
    if !ViewMode(id) || companyId.None? || companyId.value == 0 {
      return;
    }
    next := next.(loading := true, error := "", success := "");
    calls := [ViewCall(companyId.value)];
    var failed := ReadFailure(answer, LoadFailed);
    if failed.Some? {
      next := next.(error := OrElse(failed.value, FetchFailed), loading := false);
      return;
    }
    var data := OkJson(answer).value;
    if data == JNull {
      next := next.(error := NullData, loading := false);
      return;
    }
    next := next.(name := TextOr(Or(Get(data, "name"), Get(data, "companyName"))));
    next := next.(city := TextOr(Get(data, "city")));
    next := next.(address := TextOr(Get(data, "address")));
    next := next.(error := "", loading := false);
  }

  function SaveCall(user: Option<Json>, page: CompanyPage): Call {
    Call("/api/profile/company", Options("POST", map["X-User-Login" := Interp(Prop(user, "login")), "X-User-Role" := Interp(Prop(user, "role"))],
                                         Form([("name", Field(page.name)), ("city", Field(page.city)), ("address", Field(page.address))])))
  }

  /** `handleSubmit`, reachable only where the form shows: all three fields are required. The
    * form goes through the request client, whose token writes stay whatever the page does. A
    * failed save keeps the fields; a saved profile replaces them, is stored, and either leaves
    * the own edit route for the home page or closes the form. */
  method Submit(store: Storage.Store, server: Server, user: Option<Json>, id: Option<string>, pathname: string, page: CompanyPage)
    returns (next: CompanyPage, calls: seq<Call>, nav: Nav)
    modifies store, server
    ensures AccessOf(user, id) != Allowed || !ShowsForm(page, id) ==>
              calls == [] && next == page && nav == Stay && store.entries == old(store.entries) && unchanged(server)
    ensures AccessOf(user, id) == Allowed && ShowsForm(page, id) && (page.name == "" || page.city == "" || page.address == "") ==>
              calls == [] && nav == Stay && store.entries == old(store.entries) && unchanged(server)
              && next == page.(error := FieldsMissing, success := "")
    ensures AccessOf(user, id) == Allowed && ShowsForm(page, id) && page.name != "" && page.city != "" && page.address != "" ==>
              var run := Fetched(old(store.entries), old(server.script), SaveCall(user, page));
              var answer := run.result;
              && calls == [SaveCall(user, page)] && !next.loading
              && server.sent == old(server.sent) + run.sent && server.script == run.script
              && (OkJson(answer).None? || OkJson(answer) == Some(JNull) ==>
                    && nav == Stay && store.entries == run.entries && next.success == "" && next.editMode == page.editMode
                    && next.name == page.name && next.city == page.city && next.address == page.address)
              && (answer.Failure? ==> next.error == ApiClient.Message(answer.error))
              && (answer.Success? && !answer.value.Ok() ==> next.error == OrElse(answer.value.text, SaveFailed))
              && (answer.Success? && answer.value.Ok() && answer.value.json.None? ==> next.error == ParseFailed)
              && (OkJson(answer) == Some(JNull) ==> next.error == NullData)
              && (OkJson(answer).Some? && OkJson(answer).value != JNull ==>
                    var data := OkJson(answer).value;
                    && next.name == TextOr(Get(data, "name")) && next.city == TextOr(Get(data, "city"))
                    && next.address == TextOr(Get(data, "address"))
                    && store.entries == run.entries[ProfileKey := Stringify(data)]
                    && next.success == Saved && next.error == ""
                    && (pathname == OwnEditPath ==> nav == GoTo("/") && next.editMode == page.editMode)
                    && (pathname != OwnEditPath ==> nav == Stay && !next.editMode))
  {
    next := page;
    calls := [];
    nav := Stay;
    if AccessOf(user, id) != Allowed || !ShowsForm(page, id) {
      return;
    }
    next := next.(error := "", success := "");
    if page.name == "" || page.city == "" || page.address == "" {
      next := next.(error := FieldsMissing);
      return;
    }
    next := next.(loading := true);
    calls := [SaveCall(user, page)];
    var answer := ApiClient.ApiFetch(store, server, calls[0].target, calls[0].options, true);
    if answer.Failure? {
      next := next.(error := OrElse(ApiClient.Message(answer.error), ConnectionError), loading := false);
      return;
    }
    var res := answer.value;
    if !res.Ok() {
      next := next.(error := OrElse(OrElse(res.text, SaveFailed), ConnectionError), loading := false);
      return;
    }
    if res.json.None? {
      next := next.(error := OrElse(ParseFailed, ConnectionError), loading := false);
      return;
    }
    var data := res.json.value;
    if data == JNull {
      next := next.(error := NullData, loading := false);
      return;
    }
    next := next.(name := TextOr(Get(data, "name")), city := TextOr(Get(data, "city")), address := TextOr(Get(data, "address")));
    store.Set(ProfileKey, Stringify(data));
    next := next.(success := Saved);
    if pathname == OwnEditPath {
      nav := GoTo("/");
    } else {
      next := next.(editMode := false);
    }
    next := next.(loading := false);
  }
}
