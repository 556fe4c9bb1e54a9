/** The list of the user's chats: which endpoint a role reads them from, and how each chat is
  * shown and opened. */
module ChatList {
  import opened Wrappers
  import opened Json
  import opened Http
  import opened Web
  import Text

  const VacanciesFailed := "Не удалось загрузить вакансии компании"
  const NoVacancies := "У компании нет вакансий — чатов пока нет."
  const NoCompanyId := "Не удалось определить companyId"
  const ChatsFailed := "Не удалось загрузить чаты"
  const LoadFailed := "Ошибка загрузки чатов"

  datatype Chats = Chats(chats: seq<Json>, loading: bool, error: string)

  const Initial := Chats([], true, "")

  function EmployeeChatsCall(login: Option<Json>): Call {
    Call("/api/chats/employee", Options("GET", map["X-User-Login" := Interp(login)], NoBody))
  }

  function VacanciesCall(login: Option<Json>, role: Option<Json>): Call {
    Call("/api/vacancy/company", Options("GET", map["X_User_Login" := Interp(login), "X_User_Role" := Interp(role)], NoBody))
  }

  /** The company's chats; the id is put into the query as it is, without encoding. */
  function CompanyChatsCall(companyId: Option<Json>, login: Option<Json>): Call {
    Call("/api/chats/company?companyId=" + Interp(companyId), Options("GET", map["X-User-Login" := Interp(login)], NoBody))
  }

  /** The end of `loadChats` once the chats request is made: its error or its list. */
  function ChatsRead(page: Chats, a: Answer): (r: Chats)
    ensures !r.loading
    ensures ReadFailure(a, ChatsFailed).Some? ==> r == page.(error := ReadFailure(a, ChatsFailed).value, loading := false)
    ensures OkJson(a).Some? ==> r == page.(chats := ArrayOrEmpty(OkJson(a).value), loading := false)
  {
    match ReadFailure(a, ChatsFailed)
    case Some(m) => page.(error := OrElse(m, LoadFailed), loading := false)
    case None => page.(chats := ArrayOrEmpty(OkJson(a).value), loading := false)
  }

  /** `loadChats`: nothing without a user or for a role other than employee and company. An
    * employee's chats come by login; a company's by the `companyId` of its first vacancy, and
    * without vacancies or without that id the load ends in an error with no chats request. */
  method LoadChats(user: Option<Json>, page: Chats, answers: seq<Answer>) returns (next: Chats, calls: seq<Call>)
    ensures !next.loading
    ensures !Truthy(user) || !(HasRole(user, RoleEmployee) || HasRole(user, RoleCompany)) ==>
              calls == [] && next == page.(loading := false)
    ensures Truthy(user) && HasRole(user, RoleEmployee) ==>
              calls == [EmployeeChatsCall(Prop(user, "login"))] && next == ChatsRead(page, AnswerAt(answers, 0))
    ensures Truthy(user) && HasRole(user, RoleCompany) ==>
              var vacancies := AnswerAt(answers, 0);
              && |calls| >= 1 && calls[0] == VacanciesCall(Prop(user, "login"), Prop(user, "role"))
              && (ReadFailure(vacancies, VacanciesFailed).Some? ==>
                    calls == [calls[0]] && next == page.(error := ReadFailure(vacancies, VacanciesFailed).value, loading := false))
              && (OkJson(vacancies).Some? && ArrayOrEmpty(OkJson(vacancies).value) == [] ==>
                    calls == [calls[0]] && next == page.(error := NoVacancies, loading := false))
              && (OkJson(vacancies).Some? && ArrayOrEmpty(OkJson(vacancies).value) != [] ==>
                    var cid := Get(ArrayOrEmpty(OkJson(vacancies).value)[0], "companyId");
                    && (!Truthy(cid) ==> calls == [calls[0]] && next == page.(error := NoCompanyId, loading := false))
                    && (Truthy(cid) ==> calls == [calls[0], CompanyChatsCall(cid, Prop(user, "login"))]
                                        && next == ChatsRead(page, AnswerAt(answers, 1))))
  {
    next := page;
    calls := [];
    if !Truthy(user) {
      next := next.(loading := false);
      return;
    }
    var role := Prop(user, "role");
    var login := Prop(user, "login");
    var reply: Answer;
    if role == Some(JStr(RoleEmployee)) {
      calls := [EmployeeChatsCall(login)];
      reply := AnswerAt(answers, 0);
    } else if role == Some(JStr(RoleCompany)) {
      calls := [VacanciesCall(login, role)];
      var vacRes := AnswerAt(answers, 0);
      var failed := ReadFailure(vacRes, VacanciesFailed);
      if failed.Some? {
        next := next.(error := OrElse(failed.value, LoadFailed), loading := false);
        return;
      }
      var vacancies := OkJson(vacRes).value;
      if !vacancies.JArr? || |vacancies.items| == 0 {
        next := next.(error := NoVacancies, loading := false);
        return;
      }
      var companyId := Get(vacancies.items[0], "companyId");
      if !Truthy(companyId) {
        next := next.(error := NoCompanyId, loading := false);
        return;
      }
      calls := calls + [CompanyChatsCall(companyId, login)];
      reply := AnswerAt(answers, 1);
    } else {
      next := next.(loading := false);
      return;
    }
    next := ChatsRead(next, reply);
  }

  /** `handleProfileClick`: an employee opens the company's profile and a company the
    * employee's, even when the id is missing (the path then ends in "undefined"); other roles
    * stay. */
  function ProfileTarget(user: Option<Json>, c: Json): (r: Nav)
    ensures r.GoTo? <==> HasRole(user, RoleEmployee) || HasRole(user, RoleCompany)
    ensures HasRole(user, RoleEmployee) ==> r == GoTo("/profile/employee/view/" + Interp(Get(c, "companyId")))
    ensures HasRole(user, RoleCompany) ==> r == GoTo("/profile/company/view/" + Interp(Get(c, "employeeLogin")))
  {
    if HasRole(user, RoleEmployee) then GoTo("/profile/employee/view/" + Interp(Get(c, "companyId")))
    else if HasRole(user, RoleCompany) then GoTo("/profile/company/view/" + Interp(Get(c, "employeeLogin")))
    else Stay
  }

  /** `displayName`: for an employee the company's name or "Компания #id"; for anyone else the
    * employee's name, then login, then "Соискатель". It is never empty. */
  function DisplayName(user: Option<Json>, c: Json): (r: Json)
    ensures Truthy(Some(r))
    ensures HasRole(user, RoleEmployee) && Truthy(Get(c, "companyName")) ==> Some(r) == Get(c, "companyName")
    ensures HasRole(user, RoleEmployee) && !Truthy(Get(c, "companyName")) ==> r == JStr("Компания #" + Interp(Get(c, "companyId")))
    ensures !HasRole(user, RoleEmployee) ==>
              r == JStr("Соискатель") || Some(r) == Get(c, "employeeName") || Some(r) == Get(c, "employeeLogin")
    ensures !HasRole(user, RoleEmployee) && Truthy(Get(c, "employeeName")) ==> Some(r) == Get(c, "employeeName")
    ensures !HasRole(user, RoleEmployee) && !Truthy(Get(c, "employeeName")) && Truthy(Get(c, "employeeLogin")) ==>
              Some(r) == Get(c, "employeeLogin")
  {
    if HasRole(user, RoleEmployee) then OrText(Get(c, "companyName"), "Компания #" + Interp(Get(c, "companyId")))
    else OrText(Or(Get(c, "employeeName"), Get(c, "employeeLogin")), "Соискатель")
  }

  /** `vacancyLine`: "Без вакансии" exactly when the chat names no vacancy, otherwise a line
    * that starts with "Вакансия: " and shows the name, or the id when there is no name. */
  function VacancyLine(c: Json): (r: string)
    ensures r == "Без вакансии" <==> !Truthy(Get(c, "vacancyName")) && !Truthy(Get(c, "vacancyId"))
    ensures Truthy(Get(c, "vacancyName")) ==> r == "Вакансия: " + Interp(Get(c, "vacancyName"))
    ensures !Truthy(Get(c, "vacancyName")) && Truthy(Get(c, "vacancyId")) ==> r == "Вакансия: #" + Interp(Get(c, "vacancyId"))
  {
    var r := if Truthy(Get(c, "vacancyName")) then "Вакансия: " + Interp(Get(c, "vacancyName"))
             else if Truthy(Get(c, "vacancyId")) then "Вакансия: #" + Interp(Get(c, "vacancyId"))
             else "Без вакансии";
    assert r[0] == "Без вакансии"[0] ==> r == "Без вакансии";
    r
  }

  /** The avatar of a chat: the first letter of `displayName`. A company's chat with no names
    * shows the letter of "Соискатель". */
  lemma UnnamedEmployeeAvatar(user: Option<Json>, c: Json)
    requires !HasRole(user, RoleEmployee) && !Truthy(Get(c, "employeeName")) && !Truthy(Get(c, "employeeLogin"))
    ensures AvatarOf(DisplayName(user, c)) == "С"
  {
  }
}
