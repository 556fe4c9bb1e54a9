/** The sign-up page: the request goes straight to the back end (not through the request
  * client); a refusal is explained by the first known phrase in its text, and an accepted
  * sign-up stores the tokens and the user and starts the role's onboarding. */
module Register {
  import opened Wrappers
  import opened Json
  import opened Http
  import opened Web
  import Storage
  import ApiClient
  import Text

  const SignUpUrl := "http://localhost:8080/api/auth/sign-up"

  const LoginTaken := "Пользователь с таким логином уже существует"
  const FieldsMissing := "Заполните все поля"
  const LoginEmpty := "Логин не может быть пустым"
  const PasswordEmpty := "Пароль не может быть пустым"
  const RoleMissing := "Выберите роль"
  const SignUpFailed := "Ошибка при регистрации"

  /** Where onboarding starts: a company fills in its profile, anyone else enters the employee
    * registration wizard. */
  const CompanyStart := "/profile/company"
  const EmployeeStart := "/profile/employee/basic?flow=register"

  /** The form: the role is `null` until one of the two buttons is pressed. */
  datatype RegisterPage = RegisterPage(login: string, password: string, role: Option<string>, error: string, loading: bool)

  function RoleValue(role: Option<string>): Json {
    if role.Some? then JStr(role.value) else JNull
  }

  function SignUpCall(page: RegisterPage): Call {
    Call(SignUpUrl, Options("POST", map["Content-Type" := "application/json"],
                           JsonBody(JObj([("login", JStr(page.login)), ("password", JStr(page.password)), ("role", RoleValue(page.role))]))))
  }

  /** `text && text.includes(p)`. */
  predicate Mentions(text: string, p: string)
    ensures Mentions(text, p) <==> text != "" && exists i :: Text.OccursAt(text, p, i)
    ensures Mentions(text, p) ==> |p| <= |text|
  {
    text != "" && Text.Contains(text, p)
  }

  /** The refusal's explanation: the phrases are tried in a fixed order and the first one the
    * text contains decides; a text with none of them is the generic failure. */
  function Classify(text: string): (r: string)
    ensures Mentions(text, "already exists") ==> r == LoginTaken
    ensures !Mentions(text, "already exists") && Mentions(text, "Заполните все поля") ==> r == FieldsMissing
    ensures !Mentions(text, "already exists") && !Mentions(text, "Заполните все поля") && Mentions(text, "Login cannot be empty") ==> r == LoginEmpty
    ensures (!Mentions(text, "already exists") && !Mentions(text, "Заполните все поля") && !Mentions(text, "Login cannot be empty")
             && Mentions(text, "Password cannot be empty")) ==> r == PasswordEmpty
    ensures (!Mentions(text, "already exists") && !Mentions(text, "Заполните все поля") && !Mentions(text, "Login cannot be empty")
             && !Mentions(text, "Password cannot be empty") && Mentions(text, "Choose your role")) ==> r == RoleMissing
    ensures (!Mentions(text, "already exists") && !Mentions(text, "Заполните все поля") && !Mentions(text, "Login cannot be empty")
             && !Mentions(text, "Password cannot be empty") && !Mentions(text, "Choose your role")) ==> r == SignUpFailed
    ensures text == "" ==> r == SignUpFailed
  {
    if Mentions(text, "already exists") then LoginTaken
    else if Mentions(text, "Заполните все поля") then FieldsMissing
    else if Mentions(text, "Login cannot be empty") then LoginEmpty
    else if Mentions(text, "Password cannot be empty") then PasswordEmpty
    else if Mentions(text, "Choose your role") then RoleMissing
    else SignUpFailed
  }

  /** A phrase placed anywhere inside a text is mentioned by it. */
  lemma {:induction false} MentionedInside(before: string, p: string, after: string)
    requires p != ""
    ensures Mentions(before + p + after, p)
  {
    var s := before + p + after;
    assert s[|before|..|before| + |p|] == p;
    assert Text.OccursAt(s, p, |before|);
  }

  /** Whatever surrounds it, a server text that reports the login as taken is shown as such. */
  lemma TakenLoginReported(before: string, after: string)
    ensures Classify(before + "already exists" + after) == LoginTaken
  {
    MentionedInside(before, "already exists", after);
  }

  /** The stored user: `login`, `fullName` and `email` are all the token's subject, `role` is
    * its role; members the payload lacks are left out, as `JSON.stringify` leaves them out. */
  function StoredUser(payload: Json): (r: Json)
    ensures r.JObj?
  {
    var sub := Get(payload, "sub");
    ObjectOf([("login", sub), ("role", Get(payload, "role")), ("fullName", sub), ("email", sub)])
  }

  /** With both claims present, the stored user has exactly its four members. */
  lemma StoredUserMembers(payload: Json)
    requires Get(payload, "sub").Some? && Get(payload, "role").Some?
    ensures var sub := Get(payload, "sub").value;
            StoredUser(payload) == JObj([("login", sub), ("role", Get(payload, "role").value), ("fullName", sub), ("email", sub)])
  {
    var sub := Get(payload, "sub").value;
    var role := Get(payload, "role").value;
    var given := [("login", Some(sub)), ("role", Some(role)), ("fullName", Some(sub)), ("email", Some(sub))];
    assert ObjectOf(given[3..]) == JObj([("email", sub)]);
    assert ObjectOf(given[2..]) == JObj([("fullName", sub), ("email", sub)]);
    assert ObjectOf(given[1..]) == JObj([("role", role), ("fullName", sub), ("email", sub)]);
  }

  /** The four member names of a stored user are distinct: their first letters already differ. */
  lemma UserNamesDistinct(sub: Json, role: Json)
    ensures DistinctNames([("login", sub), ("role", role), ("fullName", sub), ("email", sub)])
  {
    assert "login"[0] == 'l' && "role"[0] == 'r' && "fullName"[0] == 'f' && "email"[0] == 'e';
  }

  lemma StoredUserFields(payload: Json)
    requires Get(payload, "sub").Some? && Get(payload, "role").Some?
    ensures Get(StoredUser(payload), "login") == Get(payload, "sub")
    ensures Get(StoredUser(payload), "fullName") == Get(payload, "sub")
    ensures Get(StoredUser(payload), "email") == Get(payload, "sub")
    ensures Get(StoredUser(payload), "role") == Get(payload, "role")
  {
    var sub := Get(payload, "sub").value;
    var members := [("login", sub), ("role", Get(payload, "role").value), ("fullName", sub), ("email", sub)];
    StoredUserMembers(payload);
    UserNamesDistinct(sub, Get(payload, "role").value);
    LastValueDistinct(members, 0);
    LastValueDistinct(members, 1);
    LastValueDistinct(members, 2);
    LastValueDistinct(members, 3);
  }

  /** Where an accepted sign-up goes: only the company role is told apart, so an unchosen role
    * starts the employee wizard. */
  function Start(role: Option<string>): (r: string)
    ensures role == Some(RoleCompany) <==> r == CompanyStart
    ensures r == CompanyStart || r == EmployeeStart
  {
    if role == Some(RoleCompany) then CompanyStart else EmployeeStart
  }

  /** `handleSubmit`: the tokens are written as the request client's `saveTokens` writes them.
    * `payload` is what `parseJwt(data.token)` gives (`None` when it throws or
    * gives `undefined`); reading `sub` of it fails unless it is a value other than `null`. */
  method Submit(store: Storage.Store, page: RegisterPage, delivery: Delivery, payload: Option<Json>)
    returns (next: RegisterPage, calls: seq<Call>, nav: Nav)
    modifies store
    ensures calls == [SignUpCall(page)] && !next.loading
    ensures next.login == page.login && next.password == page.password && next.role == page.role
    ensures delivery.Unreachable? ==> next.error == ConnectionError && nav == Stay && store.entries == old(store.entries)
    ensures delivery.Delivered? && !delivery.reply.Ok() ==>
              next.error == Classify(delivery.reply.text) && nav == Stay && store.entries == old(store.entries)
    ensures delivery.Delivered? && delivery.reply.Ok() && (delivery.reply.json.None? || delivery.reply.json == Some(JNull)) ==>
              next.error == ConnectionError && nav == Stay && store.entries == old(store.entries)
    ensures delivery.Delivered? && delivery.reply.Ok() && delivery.reply.json.Some? && delivery.reply.json != Some(JNull) ==>
              var tokens := ApiClient.TokensSaved(old(store.entries), delivery.reply.json.value);
              && (payload.None? || payload == Some(JNull) ==> next.error == ConnectionError && nav == Stay && store.entries == tokens)
              && (payload.Some? && payload != Some(JNull) ==>
                    && next.error == "" && nav == GoTo(Start(page.role))
                    && store.entries == tokens[UserKey := Stringify(StoredUser(payload.value))])
  {
    next := page.(error := "", loading := true);
    calls := [SignUpCall(page)];
    nav := Stay;
    if delivery.Unreachable? {
      next := next.(error := ConnectionError, loading := false);
      return;
    }
    var res := delivery.reply;
    if !res.Ok() {
      next := next.(error := Classify(res.text), loading := false);
      return;
    }
    if res.json.None? || res.json.value == JNull {
      next := next.(error := ConnectionError, loading := false);
      return;
    }
    var data := res.json.value;
    var token := Get(data, "token");
    if Truthy(token) {
      store.Set("token", ToJsString(token.value));
    }
    var refresh := Get(data, "refreshToken");
    if Truthy(refresh) {
      store.Set("refreshToken", ToJsString(refresh.value));
    }
    if payload.None? || payload.value == JNull {
      next := next.(error := ConnectionError, loading := false);
      return;
    }
    store.Set(UserKey, Stringify(StoredUser(payload.value)));
    next := next.(loading := false);
    if page.role == Some(RoleCompany) {
      nav := GoTo(CompanyStart);
    } else {
      nav := GoTo(EmployeeStart);
    }
  }
}
