/** The wizard's fifth step: the résumé file, sent as a form with `fetch` directly. */
module EmployeeUploadResume {
  import opened Wrappers
  import opened Http
  import opened Web
  import opened Onboarding
  import ApiClient
  import Storage

  const ResumeUrl := "http://localhost:8080/api/profile/employee/set-resume"
  const NoFile := "Пожалуйста, выберите файл резюме"
  const UploadFailed := "Ошибка загрузки резюме"
  const NextStep := "/profile/employee/upload-photo"

  /** The chosen file (known by its name), the error and the busy flag. */
  datatype ResumePage = ResumePage(file: Option<string>, error: string, loading: bool)

  /** `onFileChange`: the chosen file (none when the choice was cancelled), and no error. */
  function FileChosen(page: ResumePage, picked: Option<string>): (r: ResumePage)
    ensures r.file == picked && r.error == "" && r.loading == page.loading
  {
    page.(file := picked, error := "")
  }

  function UploadCall(token: Option<string>, fileName: string): Call {
    Call(ResumeUrl, Options("POST", map["Authorization" := Bearer(token)], Form([("file", Upload(fileName))])))
  }

  /** `onSubmit`: without a file nothing is sent; a refusal shows the reply's text (or the
    * default), a rejected `fetch` the connection error; a stored résumé moves on. */
  method Submit(store: Storage.Store, search: string, page: ResumePage, delivery: Delivery) returns (next: ResumePage, calls: seq<Call>, nav: Nav)
    ensures next.file == page.file
    ensures page.file.None? ==> calls == [] && nav == Stay && next == page.(error := NoFile)
    ensures page.file.Some? ==>
              && calls == [UploadCall(store.Get(ApiClient.TokenKey), page.file.value)] && !next.loading
              && (delivery.Unreachable? ==> next.error == ConnectionError && nav == Stay)
              && (delivery.Delivered? && !delivery.reply.Ok() ==> next.error == OrElse(delivery.reply.text, UploadFailed) && nav == Stay)
              && (delivery.Delivered? && delivery.reply.Ok() ==> next.error == "" && nav == GoTo(After(search, NextStep)))
  {
    next := page;
    calls := [];
    nav := Stay;
    if page.file.None? {
      next := next.(error := NoFile);
      return;
    }
    next := next.(loading := true, error := "");
    var token := store.Get("token");
    calls := [UploadCall(token, page.file.value)];
    if delivery.Unreachable? {
      next := next.(error := ConnectionError, loading := false);
      return;
    }
    var res := delivery.reply;
    if !res.Ok() {
      next := next.(error := OrElse(res.text, UploadFailed), loading := false);
      return;
    }
    next := next.(loading := false);
    nav := GoTo(After(search, NextStep));
  }
}
