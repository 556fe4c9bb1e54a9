/** The wizard's last step: the photo, sent as a form with `fetch` directly; the refusal's
  * explanation is dug out of its body. */
module EmployeeUploadPhoto {
  import opened Wrappers
  import opened Json
  import opened Http
  import opened Web
  import opened Onboarding
  import ApiClient
  import Storage

  const PhotoUrl := "http://localhost:8080/api/profile/employee/set-photo"
  const NoFile := "Пожалуйста, выберите фотографию"
  const UploadFailed := "Ошибка загрузки фото"
  const HomePath := "/"

  datatype PhotoPage = PhotoPage(file: Option<string>, error: string, loading: bool)

  /** `onFileChange`: the chosen file, and no error. */
  function FileChosen(page: PhotoPage, picked: Option<string>): (r: PhotoPage)
    ensures r.file == picked && r.error == "" && r.loading == page.loading
  {
    page.(file := picked, error := "")
  }

  function UploadCall(token: Option<string>, fileName: string): Call {
    Call(PhotoUrl, Options("POST", map["Authorization" := Bearer(token)], Form([("file", Upload(fileName))])))
  }

  /** The explanation of a refusal: the body's `message`, else its `error`, when the body is a
    * JSON value other than `null` (reading `null.message` throws and is swallowed); else the
    * text itself; and the default when that is empty. */
  function RefusalMessage(reply: Reply): (r: string)
    ensures r != ""
    ensures reply.json.Some? && Truthy(Get(reply.json.value, "message")) ==>
              r == OrElse(ToJsString(Get(reply.json.value, "message").value), UploadFailed)
    ensures reply.json.Some? && !Truthy(Get(reply.json.value, "message")) && Truthy(Get(reply.json.value, "error")) ==>
              r == OrElse(ToJsString(Get(reply.json.value, "error").value), UploadFailed)
    ensures reply.json.None? || (!Truthy(Get(reply.json.value, "message")) && !Truthy(Get(reply.json.value, "error"))) ==>
              r == OrElse(reply.text, UploadFailed)
  {
    var message := reply.text;
    var m := match reply.json
      case None => message
      case Some(data) =>
        if Truthy(Get(data, "message")) then ToJsString(Get(data, "message").value)
        else if Truthy(Get(data, "error")) then ToJsString(Get(data, "error").value)
        else message;
    OrElse(m, UploadFailed)
  }

  /** A plain-text refusal is shown as it is. */
  lemma PlainTextShown(status: int, text: string)
    requires text != ""
    ensures RefusalMessage(Reply(status, text, None)) == text
  {
  }

  /** `onSubmit`: without a file nothing is sent; the wizard ends on the home page, the same
    * step opened from the profile goes back to it. */
  method Submit(store: Storage.Store, search: string, page: PhotoPage, delivery: Delivery) returns (next: PhotoPage, calls: seq<Call>, nav: Nav)
    ensures next.file == page.file
    ensures page.file.None? ==> calls == [] && nav == Stay && next == page.(error := NoFile)
    ensures page.file.Some? ==>
              && calls == [UploadCall(store.Get(ApiClient.TokenKey), page.file.value)] && !next.loading
              && (delivery.Unreachable? ==> next.error == ConnectionError && nav == Stay)
              && (delivery.Delivered? && !delivery.reply.Ok() ==> next.error == RefusalMessage(delivery.reply) && nav == Stay)
              && (delivery.Delivered? && delivery.reply.Ok() ==>
                    next.error == "" && nav == GoTo(if RegisterFlow(search) then HomePath else ProfilePath))
  {
    next := page;
    calls := [];
    nav := Stay;
    if page.file.None? {
      next := next.(error := NoFile);
      return;
    }
    next := next.(loading := true, error := "");
    var token := store.Get("token");
    calls := [UploadCall(token, page.file.value)];
    if delivery.Unreachable? {
      next := next.(error := ConnectionError, loading := false);
      return;
    }
    var res := delivery.reply;
    if !res.Ok() {
      var message := res.text;
      if res.json.Some? {
        var data := res.json.value;
        if Truthy(Get(data, "message")) {
          message := ToJsString(Get(data, "message").value);
        } else if Truthy(Get(data, "error")) {
          message := ToJsString(Get(data, "error").value);
        }
      }
      next := next.(error := OrElse(message, UploadFailed), loading := false);
      return;
    }
    next := next.(loading := false);
    if RegisterFlow(search) {
      nav := GoTo(HomePath);
    } else {
      nav := GoTo(ProfilePath);
    }
  }
}
