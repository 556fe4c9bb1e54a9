/** The wizard's third step: phone, e-mail and Telegram, sent with `fetch` directly (a 401 is
  * not refreshed). The step does not read the wizard flag and moves on without it. */
module EmployeeContacts {
  import opened Wrappers
  import opened Http
  import opened Web
  import opened Onboarding
  import ApiClient
  import Storage

  const ContactsUrl := "http://localhost:8080/api/profile/employee/contact-details"
  const ContactsMissing := "Введите телефон и email"
  const SaveFailed := "Ошибка сохранения"
  const NextStep := "/profile/employee/additional"

  datatype ContactsPage = ContactsPage(phone: string, email: string, telegram: string, error: string)

  function SaveCall(token: Option<string>, page: ContactsPage): Call {
    Call(ContactsUrl, Options("POST", map["Authorization" := Bearer(token)],
                              Form([("phone", Field(page.phone)), ("email", Field(page.email)), ("telegram", Field(page.telegram))])))
  }

  /** `save`. Phone and e-mail are required, Telegram may be empty. A rejected `fetch` is not
    * caught: the error stays cleared and the page stays. Any reply that is not ok is the one
    * generic error; an ok one goes to the next step, always without the flag. */
  method Save(store: Storage.Store, page: ContactsPage, delivery: Delivery) returns (next: ContactsPage, calls: seq<Call>, nav: Nav)
    ensures next == page.(error := next.error)
    ensures page.phone == "" || page.email == "" ==> calls == [] && nav == Stay && next.error == ContactsMissing
    ensures page.phone != "" && page.email != "" ==>
              && calls == [SaveCall(store.Get(ApiClient.TokenKey), page)]
              && (delivery.Unreachable? ==> next.error == "" && nav == Stay)
              && (delivery.Delivered? && !delivery.reply.Ok() ==> next.error == SaveFailed && nav == Stay)
              && (delivery.Delivered? && delivery.reply.Ok() ==> next.error == "" && nav == GoTo(NextStep))
  {
    next := page.(error := "");
    calls := [];
    nav := Stay;
    if page.phone == "" || page.email == "" {
      next := next.(error := ContactsMissing);
      return;
    }
    var token := store.Get("token");
    calls := [Call(ContactsUrl, Options("POST", map["Authorization" := Bearer(token)],
                                        Form([("phone", Field(page.phone)), ("email", Field(page.email)), ("telegram", Field(page.telegram))])))];
    if delivery.Unreachable? {
      return;
    }
    if !delivery.reply.Ok() {
      next := next.(error := SaveFailed);
      return;
    }
    nav := GoTo(NextStep);
  }
}
