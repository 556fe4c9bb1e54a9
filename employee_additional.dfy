/** The wizard's fourth step: free text about the employee, sent as JSON with `fetch` directly. */
module EmployeeAdditional {
  import opened Wrappers
  import opened Json
  import opened Http
  import opened Web
  import opened Onboarding
  import ApiClient
  import Storage

  const AdditionalUrl := "http://localhost:8080/api/profile/employee/additional-info"
  const SaveFailed := "Ошибка сохранения"
  const NextStep := "/profile/employee/upload-resume"

  datatype AdditionalPage = AdditionalPage(addInfo: string, error: string)

  function SaveCall(token: Option<string>, addInfo: string): Call {
    Call(AdditionalUrl, Options("POST", map["Content-Type" := "application/json", "Authorization" := Bearer(token)],
                                JsonBody(JObj([("addInfo", JStr(addInfo))]))))
  }

  /** `save`: nothing is checked, an empty text is sent too. A rejected `fetch` is not caught;
    * a reply that is not ok is the generic error; an ok one goes on or back to the profile. */
  method Save(store: Storage.Store, search: string, page: AdditionalPage, delivery: Delivery) returns (next: AdditionalPage, calls: seq<Call>, nav: Nav)
    ensures next.addInfo == page.addInfo
    ensures calls == [SaveCall(store.Get(ApiClient.TokenKey), page.addInfo)]
    ensures delivery.Unreachable? ==> next.error == "" && nav == Stay
    ensures delivery.Delivered? && !delivery.reply.Ok() ==> next.error == SaveFailed && nav == Stay
    ensures delivery.Delivered? && delivery.reply.Ok() ==> next.error == "" && nav == GoTo(After(search, NextStep))
  {
    next := page.(error := "");
    nav := Stay;
    var token := store.Get("token");
    calls := [SaveCall(token, page.addInfo)];
    if delivery.Unreachable? {
      return;
    }
    if !delivery.reply.Ok() {
      next := next.(error := SaveFailed);
      return;
    }
    if RegisterFlow(search) {
      nav := GoTo(NextStep + "?" + Flag);
    } else {
      nav := GoTo(ProfilePath);
    }
  }
}
