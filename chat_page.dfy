/** One chat: the messages, the other participant found among them, the vacancy and company
  * labels of the chat's metadata, sending a message, and the header the page shows. */
module ChatPage {
  import opened Wrappers
  import opened Json
  import opened Http
  import opened Web
  import ApiClient
  import Text

  const MessagesFailed := "Не удалось загрузить сообщения"
  const LoadFailed := "Ошибка загрузки чата"
  const SendRejected := "Не удалось отправить сообщение"
  const SendFailed := "Ошибка при отправке сообщения"

  /** What reading `vacancyId` of a `null` chat body throws (Chromium's text). */
  const NullChatData := "Cannot read properties of null (reading 'vacancyId')"

  /** The role text the header and the company request compare against, as written. */
  const EmployeeWord := "EMPLOYEE"

  /** `chatInfo`, an object merged field by field; `None` is a field never set. */
  datatype Info = Info(otherUserLogin: Option<Json>, otherUserRole: Option<Json>, otherUserName: Option<Json>,
                       companyId: Option<Json>, companyName: Option<Json>)

  const NoInfo := Info(None, None, None, None, None)

  /** `vacancyInfo`: the vacancy's id and the label shown for it. */
  datatype VacancyLabel = VacancyLabel(id: Json, title: Json)

  datatype Chat = Chat(messages: seq<Json>, loading: bool, error: string, chatInfo: Option<Info>, vacancyInfo: Option<VacancyLabel>)

  const Initial := Chat([], true, "", None, None)

  /** `{...prev}`: spreading `null` gives an empty object; `chatInfo?.field` of a `null` info
    * is likewise `undefined`. */
  function Spread(prev: Option<Info>): Info {
    prev.GetOr(NoInfo)
  }

  /** The three fields read from the messages. */
  function OtherFields(i: Info): (Option<Json>, Option<Json>, Option<Json>) {
    (i.otherUserLogin, i.otherUserRole, i.otherUserName)
  }

  function MessagesPath(chatId: string): string {
    "/api/chats/" + chatId + "/messages"
  }

  function MessagesCall(chatId: string, login: Option<Json>): Call {
    Call(MessagesPath(chatId), Options("GET", map["X-User-Login" := Interp(login)], NoBody))
  }

  function ChatCall(chatId: string, login: Option<Json>): Call {
    Call("/api/chats/" + chatId, Options("GET", map["X-User-Login" := Interp(login)], NoBody))
  }

  function VacancyCall(vid: Option<Json>): Call {
    Call("/api/vacancies/" + Interp(vid), Options("GET", map[], NoBody))
  }

  function CompanyCall(cid: Option<Json>): Call {
    Call("/api/company/" + Interp(cid), Options("GET", map[], NoBody))
  }

  function SendCall(chatId: string, login: Option<Json>, text: string): Call {
    Call(MessagesPath(chatId), Options("POST", map["Content-Type" := "application/json", "X-User-Login" := Interp(login)],
                                       JsonBody(JObj([("text", JStr(text))]))))
  }

  /** `m.senderLogin === login`: the message was sent by the signed-in user. */
  predicate Mine(m: Json, login: Option<Json>)
    ensures Mine(m, login) ==> Get(m, "senderLogin") == login
    ensures login.Some? && login.value.JStr? ==> (Mine(m, login) <==> GetString(m, "senderLogin") == Some(login.value.s))
    ensures login.Some? && login.value.JObj? ==> !Mine(m, login)
  {
    StrictEquals(Get(m, "senderLogin"), login)
  }

  /** `list.find(m => m.senderLogin !== login)`: the first message someone else sent. */
  function Other(list: seq<Json>, login: Option<Json>): (r: Option<Json>)
    ensures r.Some? ==> exists i :: 0 <= i < |list| && list[i] == r.value && !Mine(list[i], login)
                                     && forall j :: 0 <= j < i ==> Mine(list[j], login)
    ensures r.None? ==> forall i :: 0 <= i < |list| ==> Mine(list[i], login)
  {
    Find(list, m => !Mine(m, login))
  }

  /** The participant read from `other`: `null` for what is missing, the name falling back to
    * the login; the company fields are kept. */
  function WithOther(prev: Option<Info>, other: Option<Json>): (r: Info)
    ensures r.companyId == Spread(prev).companyId && r.companyName == Spread(prev).companyName
    ensures other.None? ==> OtherFields(r) == (Some(JNull), Some(JNull), Some(JNull))
    ensures Truthy(Prop(other, "senderName")) ==> r.otherUserName == Prop(other, "senderName")
    ensures !Truthy(Prop(other, "senderName")) ==> r.otherUserName == r.otherUserLogin
    ensures Truthy(Prop(other, "senderLogin")) ==> r.otherUserLogin == Prop(other, "senderLogin")
    ensures !Truthy(Prop(other, "senderLogin")) ==> r.otherUserLogin == Some(JNull)
  {
    Spread(prev).(otherUserLogin := Or(Prop(other, "senderLogin"), Some(JNull)),
                  otherUserRole := Or(Prop(other, "senderRole"), Some(JNull)),
                  otherUserName := Or(Prop(other, "senderName"), Or(Prop(other, "senderLogin"), Some(JNull))))
  }

  /** The vacancy label: the fetched title, or "Вакансия #id" whenever the request, its
    * status or its body fails. It is never empty. */
  function VacancyTitle(vid: Option<Json>, a: Answer): (r: Json)
    ensures Truthy(Some(r))
    ensures OkJson(a).None? ==> r == JStr("Вакансия #" + Interp(vid))
    ensures OkJson(a).Some? && Truthy(Get(OkJson(a).value, "title")) ==> r == Get(OkJson(a).value, "title").value
    ensures OkJson(a).Some? && !Truthy(Get(OkJson(a).value, "title")) ==> r == JStr("Вакансия #" + Interp(vid))
  {
    var fallback := "Вакансия #" + Interp(vid);
    if OkJson(a).Some? then OrText(Get(OkJson(a).value, "title"), fallback) else JStr(fallback)
  }

  /** The company label: `companyName`, then `name`, then "Компания #id" whenever the request
    * fails. It is never empty. */
  function CompanyName(cid: Option<Json>, a: Answer): (r: Json)
    ensures Truthy(Some(r))
    ensures OkJson(a).None? ==> r == JStr("Компания #" + Interp(cid))
    ensures OkJson(a).Some? && Truthy(Get(OkJson(a).value, "companyName")) ==> r == Get(OkJson(a).value, "companyName").value
    ensures OkJson(a).Some? && !Truthy(Get(OkJson(a).value, "companyName")) && Truthy(Get(OkJson(a).value, "name")) ==>
              r == Get(OkJson(a).value, "name").value
    ensures OkJson(a).Some? && !Truthy(Get(OkJson(a).value, "companyName")) && !Truthy(Get(OkJson(a).value, "name")) ==>
              r == JStr("Компания #" + Interp(cid))
  {
    var fallback := "Компания #" + Interp(cid);
    if OkJson(a).Some? then OrText(Or(Get(OkJson(a).value, "companyName"), Get(OkJson(a).value, "name")), fallback)
    else JStr(fallback)
  }

  /** `a ?? b`: `b` when `a` is `null` or `undefined`. */
  function Coalesce(a: Option<Json>, b: Option<Json>): (r: Option<Json>)
    ensures a.None? || a == Some(JNull) ==> r == b
    ensures a.Some? && a != Some(JNull) ==> r == a
  {
    if a.None? || a == Some(JNull) then b else a
  }

  /** The metadata of an ok chat reply applied to the page. `answers` are those of the whole
    * load, the vacancy request being the third. */
  method ApplyChatData(user: Option<Json>, page: Chat, chatData: Json, answers: seq<Answer>) returns (next: Chat, calls: seq<Call>)
    ensures chatData == JNull ==> calls == [] && next == page.(error := NullChatData)
    ensures chatData != JNull ==>
              var vid := Get(chatData, "vacancyId");
              var cid := Get(chatData, "companyId");
              var employee := HasRole(user, EmployeeWord) && Truthy(cid);
              && calls == (if Truthy(vid) then [VacancyCall(vid)] else []) + (if employee then [CompanyCall(cid)] else [])
              && next.messages == page.messages && next.error == page.error && next.loading == page.loading
              && next.vacancyInfo == (if Truthy(vid) then Some(VacancyLabel(vid.value, VacancyTitle(vid, AnswerAt(answers, 2)))) else None)
              && (employee ==> next.chatInfo == Some(Spread(page.chatInfo).(companyId := cid,
                                 companyName := Some(CompanyName(cid, AnswerAt(answers, if Truthy(vid) then 3 else 2))))))
              && (!HasRole(user, EmployeeWord) && Truthy(cid) ==>
                    next.chatInfo == Some(Spread(page.chatInfo).(companyId := Coalesce(Spread(page.chatInfo).companyId, cid))))
              && (!Truthy(cid) ==> next.chatInfo == page.chatInfo)
  {
    next := page;
    calls := [];
    if chatData == JNull {
      next := next.(error := NullChatData);
      return;
    }
    var n := 2;
    var vid := Get(chatData, "vacancyId");
    if Truthy(vid) {
      calls := calls + [VacancyCall(vid)];
      var a := AnswerAt(answers, n);
      n := n + 1;
      next := next.(vacancyInfo := Some(VacancyLabel(vid.value, VacancyTitle(vid, a))));
    } else {
      next := next.(vacancyInfo := None);
    }
    var cid := Get(chatData, "companyId");
    if Prop(user, "role") == Some(JStr(EmployeeWord)) && Truthy(cid) {
      calls := calls + [CompanyCall(cid)];
      var a := AnswerAt(answers, n);
      next := next.(chatInfo := Some(Spread(next.chatInfo).(companyId := cid, companyName := Some(CompanyName(cid, a)))));
    } else if Truthy(cid) {
      next := next.(chatInfo := Some(Spread(next.chatInfo).(companyId := Coalesce(Spread(next.chatInfo).companyId, cid))));
    }
  }

  /** `loadMessages`: nothing without a login; then the messages (a failure ends the load with
    * its message), the other participant when there are any, and the chat's metadata when its
    * request is ok. The loading flag always ends cleared. */
  method LoadMessages(user: Option<Json>, chatId: string, page: Chat, answers: seq<Answer>) returns (next: Chat, calls: seq<Call>)
    ensures !Truthy(Prop(user, "login")) ==> calls == [] && next == page.(loading := false)
    ensures Truthy(Prop(user, "login")) ==> |calls| >= 1 && calls[0] == MessagesCall(chatId, Prop(user, "login")) && !next.loading
    ensures Truthy(Prop(user, "login")) && ReadFailure(AnswerAt(answers, 0), MessagesFailed).Some? ==>
              calls == [calls[0]] && next == page.(error := ReadFailure(AnswerAt(answers, 0), MessagesFailed).value, loading := false)
    ensures Truthy(Prop(user, "login")) && OkJson(AnswerAt(answers, 0)).Some? ==>
              var login := Prop(user, "login");
              var list := ArrayOrEmpty(OkJson(AnswerAt(answers, 0)).value);
              var meta := AnswerAt(answers, 1);
              && |calls| >= 2 && calls[1] == ChatCall(chatId, login)
              && next.messages == list
              && (list != [] ==> next.chatInfo.Some? && OtherFields(next.chatInfo.value) == OtherFields(WithOther(page.chatInfo, Other(list, login))))
              && (list == [] ==> OtherFields(Spread(next.chatInfo)) == OtherFields(Spread(page.chatInfo)))
              && (meta.Failure? ==> |calls| == 2 && next.error == ApiClient.Message(meta.error) && next.vacancyInfo == page.vacancyInfo)
              && (meta.Success? && !meta.value.Ok() ==> |calls| == 2 && next.error == "" && next.vacancyInfo == page.vacancyInfo)
              && (meta.Success? && meta.value.Ok() && meta.value.json.None? ==> |calls| == 2 && next.error == ParseFailed)
              && (OkJson(meta) == Some(JNull) ==> |calls| == 2 && next.error == NullChatData)
              && (OkJson(meta).Some? && OkJson(meta).value != JNull ==>
                    var vid := Get(OkJson(meta).value, "vacancyId");
                    && next.error == ""
                    && (Truthy(vid) ==> |calls| >= 3 && calls[2] == VacancyCall(vid)
                                        && next.vacancyInfo == Some(VacancyLabel(vid.value, VacancyTitle(vid, AnswerAt(answers, 2)))))
                    && (!Truthy(vid) ==> next.vacancyInfo == None))
  {
    next := page;
    calls := [];
    var login := Prop(user, "login");
    if !Truthy(login) {
      next := next.(loading := false);
      return;
    }
    next := next.(error := "");
    calls := [MessagesCall(chatId, login)];
    var a := AnswerAt(answers, 0);
    var failed := ReadFailure(a, MessagesFailed);
    if failed.Some? {
      next := next.(error := OrElse(failed.value, LoadFailed), loading := false);
      return;
    }
    var list := ArrayOrEmpty(OkJson(a).value);
    next := next.(messages := list);
    if list != [] {
      next := next.(chatInfo := Some(WithOther(next.chatInfo, Other(list, login))));
    }
    var more;
    next, more := LoadChatData(user, chatId, next, answers);
    calls := calls + more;
    assert calls[1] == more[0];
    next := next.(loading := false);
  }

  /** The second request of `loadMessages`: the chat's metadata, whose failure is shown without
    * ending the load and whose refusal is ignored. The messages are kept. */
  method LoadChatData(user: Option<Json>, chatId: string, page: Chat, answers: seq<Answer>) returns (next: Chat, calls: seq<Call>)
    ensures |calls| >= 1 && calls[0] == ChatCall(chatId, Prop(user, "login"))
    ensures next.messages == page.messages && next.loading == page.loading
    ensures var meta := AnswerAt(answers, 1);
            && (meta.Failure? ==> |calls| == 1 && next.error == ApiClient.Message(meta.error) && next.vacancyInfo == page.vacancyInfo
                                  && next.chatInfo == page.chatInfo)
            && (meta.Success? && !meta.value.Ok() ==> |calls| == 1 && next == page)
            && (meta.Success? && meta.value.Ok() && meta.value.json.None? ==> |calls| == 1 && next == page.(error := ParseFailed))
            && (OkJson(meta) == Some(JNull) ==> |calls| == 1 && next == page.(error := NullChatData))
            && (OkJson(meta).Some? && OkJson(meta).value != JNull ==>
                  var vid := Get(OkJson(meta).value, "vacancyId");
                  && next.error == page.error
                  && OtherFields(Spread(next.chatInfo)) == OtherFields(Spread(page.chatInfo))
                  && (page.chatInfo.Some? ==> next.chatInfo.Some?)
                  && (Truthy(vid) ==> |calls| >= 2 && calls[1] == VacancyCall(vid)
                                      && next.vacancyInfo == Some(VacancyLabel(vid.value, VacancyTitle(vid, AnswerAt(answers, 2)))))
                  && (!Truthy(vid) ==> next.vacancyInfo == None))
  {
    next := page;
    calls := [ChatCall(chatId, Prop(user, "login"))];
    var meta := AnswerAt(answers, 1);
    if meta.Failure? {
      next := next.(error := OrElse(ApiClient.Message(meta.error), LoadFailed));
    } else if meta.value.Ok() {
      if meta.value.json.None? {
        next := next.(error := OrElse(ParseFailed, LoadFailed));
      } else {
        var more;
        next, more := ApplyChatData(user, next, meta.value.json.value, answers);
        calls := calls + more;
      }
    }
  }

  /** `handleSend`: nothing for a blank text or without a login; otherwise the trimmed text is
    * sent, and only an accepted message clears the input and reloads the chat. */
  method HandleSend(user: Option<Json>, chatId: string, page: Chat, newText: string, answers: seq<Answer>)
    returns (next: Chat, text: string, calls: seq<Call>)
    ensures Text.IsBlank(newText) || !Truthy(Prop(user, "login")) ==> calls == [] && next == page && text == newText
    ensures !Text.IsBlank(newText) && Truthy(Prop(user, "login")) ==>
              var sent := AnswerAt(answers, 0);
              && |calls| >= 1 && calls[0] == SendCall(chatId, Prop(user, "login"), Text.Trim(newText))
              && (sent.Success? && sent.value.Ok() ==>
                    text == "" && |calls| >= 2 && calls[1] == MessagesCall(chatId, Prop(user, "login")) && !next.loading)
              && (sent.Success? && !sent.value.Ok() ==> calls == [calls[0]] && next == page.(error := SendRejected) && text == newText)
              && (sent.Failure? ==> calls == [calls[0]] && next == page.(error := SendFailed) && text == newText)
    ensures !Text.IsBlank(newText) && Truthy(Prop(user, "login")) && AnswerAt(answers, 0).Success? && AnswerAt(answers, 0).value.Ok()
            && OkJson(AnswerAt(answers, 1)).Some? ==>
              |calls| >= 3 && calls[2] == ChatCall(chatId, Prop(user, "login")) && next.messages == ArrayOrEmpty(OkJson(AnswerAt(answers, 1)).value)
    ensures !Text.IsBlank(newText) && Truthy(Prop(user, "login")) && AnswerAt(answers, 0).Success? && AnswerAt(answers, 0).value.Ok()
            && ReadFailure(AnswerAt(answers, 1), MessagesFailed).Some? ==>
              |calls| == 2 && next == page.(error := ReadFailure(AnswerAt(answers, 1), MessagesFailed).value, loading := false)
  {
    next := page;
    text := newText;
    calls := [];
    var login := Prop(user, "login");
    if Text.Trim(newText) == "" {
      return;
    }
    if !Truthy(login) {
      return;
    }
    next := next.(error := "");
    calls := [SendCall(chatId, login, Text.Trim(newText))];
    var sent := AnswerAt(answers, 0);
    if sent.Failure? {
      next := next.(error := SendFailed);
      return;
    }
    if !sent.value.Ok() {
      next := next.(error := SendRejected);
      return;
    }
    text := "";
    assert AnswerAt(answers[1..], 0) == AnswerAt(answers, 1);
    var more;
    next, more := LoadMessages(user, chatId, next, answers[1..]);
    calls := calls + more;
  }

  /** `handleAvatarClick`: an employee goes to the company's profile, a company to the other
    * user's; with no target id, no chat info or another role nothing happens. */
  function AvatarTarget(user: Option<Json>, info: Option<Info>): (r: Nav)
    ensures info.None? ==> r == Stay
    ensures info.Some? && HasRole(user, RoleEmployee) && Truthy(info.value.companyId) ==>
              r == GoTo("/profile/employee/view/" + Interp(info.value.companyId))
    ensures info.Some? && HasRole(user, RoleCompany) && Truthy(info.value.otherUserLogin) ==>
              r == GoTo("/profile/company/view/" + Interp(info.value.otherUserLogin))
    ensures r.GoTo? ==> info.Some? && ((HasRole(user, RoleEmployee) && Truthy(info.value.companyId))
                                       || (HasRole(user, RoleCompany) && Truthy(info.value.otherUserLogin)))
  {
    if info.None? then Stay
    else if HasRole(user, RoleEmployee) then
      (if Truthy(info.value.companyId) then GoTo("/profile/employee/view/" + Interp(info.value.companyId)) else Stay)
    else if HasRole(user, RoleCompany) && Truthy(info.value.otherUserLogin) then
      GoTo("/profile/company/view/" + Interp(info.value.otherUserLogin))
    else Stay
  }

  /** `headerName`: for the role "EMPLOYEE" the company's name or "Компания", for any other role
    * the other user's name, then login, then "Работник". It is never empty. */
  function HeaderName(user: Option<Json>, info: Option<Info>): (r: Json)
    ensures Truthy(Some(r))
    ensures HasRole(user, EmployeeWord) && Truthy(Spread(info).companyName) ==> Some(r) == Spread(info).companyName
    ensures HasRole(user, EmployeeWord) && !Truthy(Spread(info).companyName) ==> r == JStr("Компания")
    ensures !HasRole(user, EmployeeWord) && Truthy(Spread(info).otherUserName) ==> Some(r) == Spread(info).otherUserName
    ensures !HasRole(user, EmployeeWord) && !Truthy(Spread(info).otherUserName) && Truthy(Spread(info).otherUserLogin) ==>
              Some(r) == Spread(info).otherUserLogin
    ensures !HasRole(user, EmployeeWord) && !Truthy(Spread(info).otherUserName) && !Truthy(Spread(info).otherUserLogin) ==>
              r == JStr("Работник")
  {
    if HasRole(user, EmployeeWord) then OrText(Spread(info).companyName, "Компания")
    else OrText(Or(Spread(info).otherUserName, Spread(info).otherUserLogin), "Работник")
  }

  /** Before the company is known an employee sees "Компания" and its letter. */
  lemma EmployeeHeaderFallback(user: Option<Json>, info: Option<Info>)
    requires HasRole(user, EmployeeWord) && !Truthy(Spread(info).companyName)
    ensures HeaderName(user, info) == JStr("Компания")
    ensures AvatarOf(HeaderName(user, info)) == "К"
  {
  }

  /** The subtitle: the vacancy label, or the other user's kind. */
  function Subtitle(info: Option<Info>, vacancy: Option<VacancyLabel>): (r: Json)
    ensures Truthy(Some(r))
    ensures vacancy.Some? && Truthy(Some(vacancy.value.title)) ==> r == vacancy.value.title
    ensures !(vacancy.Some? && Truthy(Some(vacancy.value.title))) ==>
              r == JStr(if Spread(info).otherUserRole == Some(JStr("COMPANY")) then "Компания" else "Работник")
  {
    var title := if vacancy.Some? then Some(vacancy.value.title) else None;
    OrText(title, if Spread(info).otherUserRole == Some(JStr("COMPANY")) then "Компания" else "Работник")
  }

  /** The participant found is someone else, and every earlier message is the user's own. */
  lemma OtherIsNotMine(list: seq<Json>, login: Option<Json>, m: Json)
    requires Other(list, login) == Some(m)
    ensures m in list && !Mine(m, login)
  {
  }

  /** With every message the user's own, the other participant reads as `null`. */
  lemma AllMineNoOther(prev: Option<Info>, list: seq<Json>, login: Option<Json>)
    requires list != [] && forall i :: 0 <= i < |list| ==> Mine(list[i], login)
    ensures OtherFields(WithOther(prev, Other(list, login))) == (Some(JNull), Some(JNull), Some(JNull))
  {
  }
}
