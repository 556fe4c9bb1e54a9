/** The responses page of a company: the load pipeline (the company's vacancies, then the
  * pending responses for the company of the first one, then one title request per distinct
  * vacancy), and the approve and reject updates of the list. */
module CompanyResponses {
  import opened Wrappers
  import opened Json
  import opened Http
  import opened Web
  import ApiClient
  import Text
  import Lists
  import UrlCodec

  const NoVacancies := "У компании ещё нет вакансий, отклики отсутствуют."
  const VacanciesFailed := "Не удалось загрузить вакансии компании"
  const ResponsesFailed := "Не удалось загрузить отклики"
  const LoadFailed := "Ошибка загрузки откликов"
  const ApproveRejected := "Не удалось одобрить отклик"
  const ApproveFailed := "Ошибка при одобрении отклика"
  const RejectRejected := "Не удалось отклонить отклик"
  const RejectFailed := "Ошибка при отклонении отклика"

  /** What `(respList || []).map(...)` throws when the reply is a truthy value that is not an array. */
  const NotMappable := "(respList || []).map is not a function"

  /** The page state: the responses shown, the titles by vacancy id, the company id taken from
    * the first vacancy, the loading flag and the error text. */
  datatype Page = Page(responses: seq<Json>, titles: map<string, Json>, companyId: Option<Json>, loading: bool, error: string)

  const Initial := Page([], map[], None, true, "")

  function VacanciesCall(login: Option<Json>): Call {
    Call("/api/vacancy/company", Options("GET", map["X_User_Login" := Interp(login), "X_User_Role" := RoleCompany], NoBody))
  }

  function ResponsesPath(cid: Option<Json>): string {
    "/api/responses/company?companyId=" + Interp(cid) + "&status=PENDING"
  }

  function ResponsesCall(cid: Option<Json>, login: Option<Json>): Call {
    Call(ResponsesPath(cid), Options("GET", map["X-User-Login" := Interp(login)], NoBody))
  }

  function TitleCall(vid: Option<Json>): Call {
    Call("/api/vacancies/" + Interp(vid), Options("GET", map[], NoBody))
  }

  /** For a numeric company id the responses query names that company and always asks for the
    * pending responses only. */
  lemma ResponsesQuery(n: int)
    ensures UrlCodec.QueryGet(UrlCodec.SearchOf(ResponsesPath(Some(JNum(n)))), "companyId") == Some(Text.IntToString(n))
    ensures UrlCodec.QueryGet(UrlCodec.SearchOf(ResponsesPath(Some(JNum(n)))), "status") == Some("PENDING")
  {
    var id := Text.IntToString(n);
    var params := [("companyId", id), ("status", "PENDING")];
    ResponsesPathText(n);
    UrlCodec.SearchOfPath("/api/responses/company", UrlCodec.QueryText(params));
    IntToStringPlain(n);
    ResponsesParamsPlain(id);
    UrlCodec.QueryGetText(params, "companyId");
    UrlCodec.QueryGetText(params, "status");
  }

  lemma ResponsesPathText(n: int)
    ensures ResponsesPath(Some(JNum(n)))
            == "/api/responses/company" + "?" + UrlCodec.QueryText([("companyId", Text.IntToString(n)), ("status", "PENDING")])
  {
    var id := Text.IntToString(n);
    UrlCodec.QueryTextAppend([("companyId", id)], [("status", "PENDING")]);
    assert [("companyId", id)] + [("status", "PENDING")] == [("companyId", id), ("status", "PENDING")];
    var q := UrlCodec.QueryText([("companyId", id), ("status", "PENDING")]);
    assert q == ("companyId" + "=" + id) + "&" + ("status" + "=" + "PENDING");
    assert "companyId" + "=" == "companyId=";
    assert "status" + "=" + "PENDING" == "status=PENDING";
    assert "/api/responses/company" + "?" + "companyId=" == "/api/responses/company?companyId=";
    assert "/api/responses/company" + "?" + q == ("/api/responses/company" + "?" + "companyId=") + id + ("&" + "status=PENDING");
    assert "&" + "status=PENDING" == "&status=PENDING";
  }

  lemma ResponsesParamsPlain(id: string)
    requires UrlCodec.Plain(id)
    ensures UrlCodec.PlainParams([("companyId", id), ("status", "PENDING")])
  {
    assert UrlCodec.Plain("companyId");
    assert UrlCodec.Plain("PENDING");
  }

  lemma IntToStringPlain(n: int)
    ensures UrlCodec.Plain(Text.IntToString(n))
  {
    var d := Text.NatToString(if n < 0 then -n else n);
    assert forall i :: 0 <= i < |d| ==> '0' <= d[i] <= '9';
    assert '&' !in d && '=' !in d && '+' !in d;
  }

  /** `(respList || []).map(r => r.vacancyId)`: `None` when that throws. */
  function VacancyIds(respList: Json): (r: Option<seq<Option<Json>>>)
    ensures respList.JArr? ==> r.Some? && |r.value| == |respList.items|
                               && forall i :: 0 <= i < |respList.items| ==> r.value[i] == Get(respList.items[i], "vacancyId")
    ensures !respList.JArr? ==> (r.Some? <==> !Truthy(Some(respList))) && (r.Some? ==> r.value == [])
  {
    match respList
    case JArr(items) => Some(Pluck(items, "vacancyId"))
    case _ => if Truthy(Some(respList)) then None else Some([])
  }

  /** The title a title request yields: a truthy `title` of an ok JSON reply. */
  function TitleOf(a: Answer): (r: Option<Json>)
    ensures r.Some? ==> OkJson(a).Some? && Get(OkJson(a).value, "title") == r && Truthy(r)
    ensures r.None? ==> OkJson(a).None? || !Truthy(Get(OkJson(a).value, "title"))
  {
    match OkJson(a)
    case Some(v) => if Truthy(Get(v, "title")) then Get(v, "title") else None
    case None => None
  }

  /** The title map after one request per id, in order; the object key is the id's string. */
  function Titles(ids: seq<Option<Json>>, answers: seq<Answer>): map<string, Json> {
    if ids == [] then map[]
    else
      var n := |ids| - 1;
      var m := Titles(ids[..n], answers);
      match TitleOf(AnswerAt(answers, n))
      case Some(t) => m[Interp(ids[n]) := t]
      case None => m
  }

  /** The title map holds exactly the ids whose request gave a title, each with a title one
    * of its requests gave. */
  lemma {:induction false} TitlesKeys(ids: seq<Option<Json>>, answers: seq<Answer>)
    ensures forall k :: k in Titles(ids, answers) ==>
              exists i :: 0 <= i < |ids| && Interp(ids[i]) == k && TitleOf(AnswerAt(answers, i)) == Some(Titles(ids, answers)[k])
    ensures forall i :: 0 <= i < |ids| && TitleOf(AnswerAt(answers, i)).Some? ==> Interp(ids[i]) in Titles(ids, answers)
  {
    if ids != [] {
      var n := |ids| - 1;
      TitlesKeys(ids[..n], answers);
      assert forall i :: 0 <= i < n ==> ids[..n][i] == ids[i];
    }
  }

  /** One more title request extends the map by its title, when it gives one. */
  lemma TitlesStep(ids: seq<Option<Json>>, answers: seq<Answer>, i: nat)
    requires i < |ids|
    ensures var m := Titles(ids[..i], answers);
            var t := TitleOf(AnswerAt(answers, i));
            Titles(ids[..i + 1], answers) == if t.Some? then m[Interp(ids[i]) := t.value] else m
  {
    assert ids[..i + 1][..i] == ids[..i];
  }

  lemma DropNext(answers: seq<Answer>, i: nat)
    ensures NextAnswer(Drop(answers, i)) == (AnswerAt(answers, i), Drop(answers, i + 1))
  {
    if i < |answers| {
      assert answers[i..][1..] == answers[i + 1..];
    }
  }

  /** The per-id title requests, one after another, each failure ignored. */
  method LoadTitles(ids: seq<Option<Json>>, answers: seq<Answer>) returns (titles: map<string, Json>, calls: seq<Call>)
    ensures titles == Titles(ids, answers)
    ensures |calls| == |ids| && forall i :: 0 <= i < |ids| ==> calls[i] == TitleCall(ids[i])
  {
    titles := map[];
    calls := [];
    var rest := answers;
    for i := 0 to |ids|
      invariant titles == Titles(ids[..i], answers)
      invariant rest == Drop(answers, i)
      invariant |calls| == i && forall j :: 0 <= j < i ==> calls[j] == TitleCall(ids[j])
    {
      var vid := ids[i];
      calls := calls + [Call("/api/vacancies/" + Interp(vid), Options("GET", map[], NoBody))];
      DropNext(answers, i);
      TitlesStep(ids, answers, i);
      var a := NextAnswer(rest).0;
      rest := NextAnswer(rest).1;
      if a.Success? && a.value.Ok() && a.value.json.Some? {
        var v := a.value.json.value;
        if Truthy(Get(v, "title")) {
          titles := titles[Interp(vid) := Get(v, "title").value];
        }
      }
    }
    assert ids[..|ids|] == ids;
  }

  /** `vacancyTitles[r.vacancyId] || "Vacancy #" + r.vacancyId`. */
  function TitleShown(titles: map<string, Json>, vid: Option<Json>): (r: string)
    ensures Interp(vid) in titles && Truthy(Some(titles[Interp(vid)])) ==> r == ToJsString(titles[Interp(vid)])
    ensures Interp(vid) !in titles ==> r == "Vacancy #" + Interp(vid)
  {
    var t := if Interp(vid) in titles then Some(titles[Interp(vid)]) else None;
    if Truthy(t) then ToJsString(t.value) else "Vacancy #" + Interp(vid)
  }

  /** A title that was fetched is shown; one that was not shows the id. */
  lemma TitlesShown(ids: seq<Option<Json>>, answers: seq<Answer>, i: nat)
    requires i < |ids| && TitleOf(AnswerAt(answers, i)).Some?
    ensures Interp(ids[i]) in Titles(ids, answers)
    ensures TitleShown(Titles(ids, answers), ids[i]) == ToJsString(Titles(ids, answers)[Interp(ids[i])])
  {
    TitlesKeys(ids, answers);
    var m := Titles(ids, answers);
    var j :| 0 <= j < |ids| && Interp(ids[j]) == Interp(ids[i]) && TitleOf(AnswerAt(answers, j)) == Some(m[Interp(ids[i])]);
  }

  /** `load`: nothing for anyone but a company; otherwise the vacancies, then (for a non-empty
    * list) the pending responses of the first vacancy's company, then the titles of their
    * distinct vacancies. Every failure ends the pipeline with its message. */
  method Load(user: Option<Json>, answers: seq<Answer>) returns (page: Page, calls: seq<Call>)
    ensures !page.loading
    ensures !HasRole(user, RoleCompany) ==> calls == [] && page == Initial.(loading := false)
    ensures HasRole(user, RoleCompany) ==> |calls| >= 1 && calls[0] == VacanciesCall(Prop(user, "login"))
    ensures HasRole(user, RoleCompany) && ReadFailure(AnswerAt(answers, 0), VacanciesFailed).Some? ==>
              calls == [calls[0]] && page == Initial.(loading := false, error := ReadFailure(AnswerAt(answers, 0), VacanciesFailed).value)
    ensures HasRole(user, RoleCompany) && OkJson(AnswerAt(answers, 0)).Some? && ArrayOrEmpty(OkJson(AnswerAt(answers, 0)).value) == [] ==>
              calls == [calls[0]] && page == Initial.(loading := false, error := NoVacancies)
    ensures HasRole(user, RoleCompany) && OkJson(AnswerAt(answers, 0)).Some? && ArrayOrEmpty(OkJson(AnswerAt(answers, 0)).value) != [] ==>
              var cid := Get(ArrayOrEmpty(OkJson(AnswerAt(answers, 0)).value)[0], "companyId");
              && |calls| >= 2 && calls[1] == ResponsesCall(cid, Prop(user, "login")) && page.companyId == cid
              && (ReadFailure(AnswerAt(answers, 1), ResponsesFailed).Some? ==>
                    calls == calls[..2] && page == Initial.(loading := false, companyId := cid, error := ReadFailure(AnswerAt(answers, 1), ResponsesFailed).value))
              && (OkJson(AnswerAt(answers, 1)).Some? ==>
                    var respList := OkJson(AnswerAt(answers, 1)).value;
                    && page.responses == ArrayOrEmpty(respList)
                    && (VacancyIds(respList).None? ==> calls == calls[..2] && page.titles == map[] && page.error == NotMappable)
                    && (VacancyIds(respList).Some? ==>
                          var ids := Lists.Dedupe(VacancyIds(respList).value);
                          && page.error == ""
                          && |calls| == 2 + |ids| && (forall i :: 0 <= i < |ids| ==> calls[2 + i] == TitleCall(ids[i]))
                          && page.titles == Titles(ids, answers[2..])))
  {
    page := Initial;
    calls := [];
    if !Truthy(user) || Prop(user, "role") != Some(JStr(RoleCompany)) {
      page := page.(loading := false);
      return;
    }
    var role, login := Prop(user, "role"), Prop(user, "login");
    var rest := answers;
    calls := calls + [Call("/api/vacancy/company", Options("GET", map["X_User_Login" := Interp(login), "X_User_Role" := Interp(role)], NoBody))];
    var vacRes := NextAnswer(rest).0;
    rest := NextAnswer(rest).1;
    var thrown := ReadFailure(vacRes, VacanciesFailed);
    if thrown.Some? {
      page := page.(error := OrElse(thrown.value, LoadFailed), loading := false);
      return;
    }
    var vacancies := vacRes.value.json.value;
    if !vacancies.JArr? || |vacancies.items| == 0 {
      page := page.(error := NoVacancies, loading := false);
      return;
    }
    var cid := Get(vacancies.items[0], "companyId");
    assert rest == answers[1..] && AnswerAt(rest, 0) == AnswerAt(answers, 1);
    assert |rest| >= 1 ==> rest[1..] == answers[2..];
    var more;
    page, more := LoadResponses(login, cid, rest);
    calls := calls + more;
    assert calls[1..] == more && calls[..2] == calls[..1] + more[..1];
  }

  /** The pipeline once the company id is known: its pending responses (a failure ends the
    * load with its message), then one title request per distinct vacancy. */
  method LoadResponses(login: Option<Json>, cid: Option<Json>, answers: seq<Answer>) returns (page: Page, calls: seq<Call>)
    ensures !page.loading && page.companyId == cid
    ensures |calls| >= 1 && calls[0] == ResponsesCall(cid, login)
    ensures ReadFailure(AnswerAt(answers, 0), ResponsesFailed).Some? ==>
              calls == [calls[0]] && page == Initial.(loading := false, companyId := cid, error := ReadFailure(AnswerAt(answers, 0), ResponsesFailed).value)
    ensures OkJson(AnswerAt(answers, 0)).Some? ==>
              var respList := OkJson(AnswerAt(answers, 0)).value;
              && page.responses == ArrayOrEmpty(respList)
              && (VacancyIds(respList).None? ==> calls == [calls[0]] && page.titles == map[] && page.error == NotMappable)
              && (VacancyIds(respList).Some? ==>
                    var ids := Lists.Dedupe(VacancyIds(respList).value);
                    && page.error == ""
                    && |calls| == 1 + |ids| && (forall i :: 0 <= i < |ids| ==> calls[1 + i] == TitleCall(ids[i]))
                    && page.titles == Titles(ids, answers[1..]))
  {
    page := Initial.(companyId := cid);
    calls := [Call("/api/responses/company?companyId=" + Interp(cid) + "&status=PENDING", Options("GET", map["X-User-Login" := Interp(login)], NoBody))];
    var respRes := NextAnswer(answers).0;
    var rest := NextAnswer(answers).1;
    var thrown := ReadFailure(respRes, ResponsesFailed);
    if thrown.Some? {
      page := page.(error := OrElse(thrown.value, LoadFailed), loading := false);
      return;
    }
    assert rest == answers[1..];
    var respList := respRes.value.json.value;
    page := page.(responses := ArrayOrEmpty(respList));
    var mapped := VacancyIds(respList);
    if mapped.None? {
      page := page.(error := NotMappable, loading := false);
      return;
    }
    var uniqueVacancyIds := Lists.Dedupe(mapped.value);
    var titleMap, titleCalls := LoadTitles(uniqueVacancyIds, rest);
    calls := calls + titleCalls;
    assert forall i :: 0 <= i < |uniqueVacancyIds| ==> calls[1 + i] == titleCalls[i];
    page := page.(titles := titleMap, loading := false);
  }

  /** `prev.map(r => r.id === updated.id ? updated : r)`. */
  function Approved(list: seq<Json>, updated: Json): (r: seq<Json>)
    ensures |r| == |list|
    ensures forall i :: 0 <= i < |list| && StrictEquals(Get(list[i], "id"), Get(updated, "id")) ==> r[i] == updated
    ensures forall i :: 0 <= i < |list| && !StrictEquals(Get(list[i], "id"), Get(updated, "id")) ==> r[i] == list[i]
  {
    seq(|list|, i requires 0 <= i < |list| => if StrictEquals(Get(list[i], "id"), Get(updated, "id")) then updated else list[i])
  }

  /** Applying the same update twice changes nothing more. */
  lemma ApprovedIdempotent(list: seq<Json>, updated: Json)
    requires StrictEquals(Get(updated, "id"), Get(updated, "id"))
    ensures Approved(Approved(list, updated), updated) == Approved(list, updated)
  {
  }

  predicate IsPending(r: Json) {
    Get(r, "status") == Some(JStr("PENDING"))
  }

  /** `prev.map(...).filter(r => r.status === "PENDING")`. */
  function Rejected(list: seq<Json>, updated: Json): (r: seq<Json>)
    ensures forall x :: x in r ==> IsPending(x)
    ensures forall i :: 0 <= i < |list| && !StrictEquals(Get(list[i], "id"), Get(updated, "id")) && IsPending(list[i]) ==> list[i] in r
    ensures IsPending(updated) ==> forall i :: 0 <= i < |list| && StrictEquals(Get(list[i], "id"), Get(updated, "id")) ==> updated in r
    ensures forall x :: x in r <==> x in Approved(list, updated) && IsPending(x)
    ensures |r| <= |list|
  {
    var mapped := Approved(list, updated);
    assert forall i :: 0 <= i < |list| ==> mapped[i] in mapped;
    Lists.Filter(mapped, IsPending)
  }

  /** The update works entry by entry. */
  lemma ApprovedAppend(a: seq<Json>, b: seq<Json>, updated: Json)
    ensures Approved(a + b, updated) == Approved(a, updated) + Approved(b, updated)
  {
  }

  /** Rejecting keeps the order of the list: it is applied part by part. */
  lemma RejectedAppend(a: seq<Json>, b: seq<Json>, updated: Json)
    ensures Rejected(a + b, updated) == Rejected(a, updated) + Rejected(b, updated)
  {
    ApprovedAppend(a, b, updated);
    Lists.FilterAppend(Approved(a, updated), Approved(b, updated), IsPending);
  }

  /** A rejected response whose reply is no longer pending leaves the list: no entry with its
    * id remains. */
  lemma RejectedRemoves(list: seq<Json>, updated: Json)
    requires !IsPending(updated) && Get(updated, "id").Some? && !Get(updated, "id").value.JArr? && !Get(updated, "id").value.JObj?
    ensures forall x :: x in Rejected(list, updated) ==> Get(x, "id") != Get(updated, "id")
  {
    var mapped := Approved(list, updated);
    forall x | x in Rejected(list, updated) ensures Get(x, "id") != Get(updated, "id") {
      var i :| 0 <= i < |mapped| && mapped[i] == x;
    }
  }

  function ActionCall(responseId: Option<Json>, action: string, login: Option<Json>): Call {
    Call("/api/responses/" + Interp(responseId) + "/" + action,
         Options("POST", map["Content-Type" := "application/json", "X-User-Login" := Interp(login)], TextBody("{}")))
  }

  function ChatsCall(companyId: Option<Json>, login: Option<Json>): Call {
    Call("/api/chats/company?companyId=" + Interp(companyId), Options("GET", map["X-User-Login" := Interp(login)], NoBody))
  }

  /** The chat of an approved response: same vacancy and same employee. */
  predicate SameChat(updated: Json, c: Json) {
    StrictEquals(Get(c, "vacancyId"), Get(updated, "vacancyId")) && StrictEquals(Get(c, "employeeLogin"), Get(updated, "employeeLogin"))
  }

  /** Where approving leads: the first matching chat of an ok chat list, else the chat list. */
  function ChatTarget(updated: Json, chats: Answer): (nav: Nav)
    ensures nav.GoTo?
    ensures OkJson(chats).None? ==> nav == GoTo("/chats")
    ensures OkJson(chats).Some? ==>
              var found := Find(ArrayOrEmpty(OkJson(chats).value), c => SameChat(updated, c));
              nav == if found.Some? && Truthy(found) then GoTo("/chats/" + Interp(Get(found.value, "id"))) else GoTo("/chats")
  {
    match OkJson(chats)
    case None => GoTo("/chats")
    case Some(list) =>
      var chat := Find(ArrayOrEmpty(list), c => SameChat(updated, c));
      if Truthy(chat) then GoTo("/chats/" + Interp(Get(chat.value, "id"))) else GoTo("/chats")
  }

  /** `handleApprove`: a failed approve only sets its error; a successful one replaces the entry
    * and goes to the response's chat, looked up only when a company id is known. */
  method Approve(login: Option<Json>, page: Page, response: Json, answers: seq<Answer>)
    returns (next: Page, calls: seq<Call>, nav: Nav)
    ensures |calls| >= 1 && calls[0] == ActionCall(Get(response, "id"), "approve", login)
    ensures OkJson(AnswerAt(answers, 0)).None? ==>
              calls == [calls[0]] && nav == Stay
              && next == page.(error := if AnswerAt(answers, 0).Success? && !AnswerAt(answers, 0).value.Ok() then ApproveRejected else ApproveFailed)
    ensures OkJson(AnswerAt(answers, 0)).Some? ==>
              var updated := OkJson(AnswerAt(answers, 0)).value;
              && next == page.(error := "", responses := Approved(page.responses, updated))
              && (!Truthy(page.companyId) ==> calls == [calls[0]] && nav == GoTo("/chats"))
              && (Truthy(page.companyId) ==> calls == [calls[0], ChatsCall(page.companyId, login)]
                                               && nav == ChatTarget(updated, AnswerAt(answers, 1)))
  {
    next := page.(error := "");
    calls := [Call("/api/responses/" + Interp(Get(response, "id")) + "/approve",
                   Options("POST", map["Content-Type" := "application/json", "X-User-Login" := Interp(login)], TextBody("{}")))];
    var res := NextAnswer(answers).0;
    var rest := NextAnswer(answers).1;
    if res.Failure? || (res.value.Ok() && res.value.json.None?) {
      next := next.(error := ApproveFailed);
      return next, calls, Stay;
    }
    if !res.value.Ok() {
      next := next.(error := ApproveRejected);
      return next, calls, Stay;
    }
    var updated := res.value.json.value;
    next := next.(responses := Approved(next.responses, updated));
    if Truthy(page.companyId) {
      calls := calls + [Call("/api/chats/company?companyId=" + Interp(page.companyId), Options("GET", map["X-User-Login" := Interp(login)], NoBody))];
      var chatsRes := NextAnswer(rest).0;
      if chatsRes.Success? && chatsRes.value.Ok() && chatsRes.value.json.Some? {
        var chats := chatsRes.value.json.value;
        var chat := Find(ArrayOrEmpty(chats), c => SameChat(updated, c));
        if Truthy(chat) {
          return next, calls, GoTo("/chats/" + Interp(Get(chat.value, "id")));
        }
      }
    }
    nav := GoTo("/chats");
  }

  /** `handleReject`: a failed reject only sets its error; a successful one replaces the entry
    * and keeps the pending responses only. */
  method Reject(login: Option<Json>, page: Page, response: Json, answer: Answer) returns (next: Page, call: Call)
    ensures call == ActionCall(Get(response, "id"), "reject", login)
    ensures OkJson(answer).None? ==>
              next == page.(error := if answer.Success? && !answer.value.Ok() then RejectRejected else RejectFailed)
    ensures OkJson(answer).Some? ==> next == page.(error := "", responses := Rejected(page.responses, OkJson(answer).value))
  {
    next := page.(error := "");
    call := Call("/api/responses/" + Interp(Get(response, "id")) + "/reject",
                 Options("POST", map["Content-Type" := "application/json", "X-User-Login" := Interp(login)], TextBody("{}")));
    if answer.Failure? || (answer.value.Ok() && answer.value.json.None?) {
      next := next.(error := RejectFailed);
      return;
    }
    if !answer.value.Ok() {
      next := next.(error := RejectRejected);
      return;
    }
    next := next.(responses := Rejected(next.responses, answer.value.json.value));
  }
}
