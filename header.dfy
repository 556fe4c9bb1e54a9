/** The header on every page: the role flags that choose its links, the avatar, the employee's
  * photo and name merged into the signed-in user, and logging out. */
module Header {
  import opened Wrappers
  import opened Json
  import opened Http
  import opened Web
  import ApiClient
  import Storage
  import Text

  const LoginPath := "/login"

  const ProfileCall := Call("/api/profile/employee/me", Options("GET", map[], NoBody))

  /** `user?.role === "..."`: each flag is an exact match on the role. */
  predicate IsCompany(user: Option<Json>)
    ensures IsCompany(user) <==> user.Some? && user.value.JObj? && GetString(user.value, "role") == Some(RoleCompany)
    ensures IsCompany(user) ==> Truthy(user)
  {
    HasRole(user, RoleCompany)
  }

  predicate IsEmployee(user: Option<Json>)
    ensures IsEmployee(user) <==> user.Some? && user.value.JObj? && GetString(user.value, "role") == Some(RoleEmployee)
    ensures IsEmployee(user) ==> Truthy(user)
  {
    HasRole(user, RoleEmployee)
  }

  predicate IsAdmin(user: Option<Json>)
    ensures IsAdmin(user) <==> user.Some? && user.value.JObj? && GetString(user.value, "role") == Some(RoleAdmin)
    ensures IsAdmin(user) ==> Truthy(user)
  {
    HasRole(user, RoleAdmin)
  }

  /** One role at most: the three link groups never show together. */
  lemma AtMostOneRole(user: Option<Json>)
    ensures !(IsCompany(user) && IsEmployee(user))
    ensures !(IsCompany(user) && IsAdmin(user))
    ensures !(IsEmployee(user) && IsAdmin(user))
  {
    assert RoleCompany[5] != RoleEmployee[5] && RoleCompany[5] != RoleAdmin[5] && RoleEmployee[5] != RoleAdmin[5];
  }

  /** `isActive(path)`: the link of the current page. */
  predicate IsActive(pathname: string, path: string) {
    pathname == path
  }

  /** The paths of the links the header highlights: home, about, contact and, for an admin,
    * the analytics page. */
  const NavPaths := ["/", "/about", "/contact", "/admin/analytics"]

  /** Whatever the current page, at most one of the header's links is highlighted, and a page
    * outside them highlights none. */
  lemma OneLinkActive(pathname: string)
    ensures forall i, j :: 0 <= i < j < |NavPaths| ==> !(IsActive(pathname, NavPaths[i]) && IsActive(pathname, NavPaths[j]))
    ensures pathname !in NavPaths ==> forall i :: 0 <= i < |NavPaths| ==> !IsActive(pathname, NavPaths[i])
  {
    assert |NavPaths[0]| == 1 && |NavPaths[1]| == 6 && |NavPaths[2]| == 8 && |NavPaths[3]| == 16;
  }

  /** `v?.key?.[0]?.toUpperCase()` for a string property. */
  function Initial(user: Option<Json>, key: string): (r: Option<string>)
    ensures r.Some? <==> user.Some? && GetString(user.value, key).Some? && GetString(user.value, key).value != ""
    ensures r.Some? ==> r.value == [Text.UpperChar(GetString(user.value, key).value[0])]
  {
    Text.FirstUpper(if user.Some? then GetString(user.value, key) else None)
  }

  /** `getAvatarLetter`: the full name's first letter, else the e-mail's, else "U". */
  function AvatarLetter(user: Option<Json>): (r: string)
    ensures |r| == 1
    ensures Initial(user, "fullName").Some? ==> r == Initial(user, "fullName").value
    ensures Initial(user, "fullName").None? && Initial(user, "email").Some? ==> r == Initial(user, "email").value
    ensures Initial(user, "fullName").None? && Initial(user, "email").None? ==> r == "U"
  {
    match Initial(user, "fullName")
    case Some(l) => l
    case None =>
      match Initial(user, "email")
      case Some(l) => l
      case None => "U"
  }

  /** `data.mainPhoto || prev.avatarUrl || null`. */
  function AvatarUrl(prev: Option<Json>, data: Json): (r: Json)
    ensures Truthy(Get(data, "mainPhoto")) ==> r == Get(data, "mainPhoto").value
    ensures !Truthy(Get(data, "mainPhoto")) && Truthy(Prop(prev, "avatarUrl")) ==> r == Prop(prev, "avatarUrl").value
    ensures !Truthy(Get(data, "mainPhoto")) && !Truthy(Prop(prev, "avatarUrl")) ==> r == JNull
  {
    OrElseNull(Or(Get(data, "mainPhoto"), Prop(prev, "avatarUrl")))
  }

  /** `v || null`. */
  function OrElseNull(v: Option<Json>): (r: Json)
    ensures Truthy(v) ==> r == v.value
    ensures !Truthy(v) ==> r == JNull
  {
    if Truthy(v) then v.value else JNull
  }

  /** `` `${first || ""} ${last || ""}`.trim() ``. */
  function ProfileName(data: Json): string {
    Text.Trim(TextOr(Get(data, "firstName")) + " " + TextOr(Get(data, "lastName")))
  }

  /** The user after the profile arrives: the photo becomes the avatar (the old one stays when
    * the profile has none); a user without a full name gets the profile's name, when it has
    * one; everything else about the user is kept. A user that is not there stays so. */
  function Merged(prev: Option<Json>, data: Json): (r: Option<Json>)
    ensures !Truthy(prev) ==> r == prev
    ensures Truthy(prev) ==> r.Some? && r.value.JObj?
    ensures Truthy(prev) ==> Get(r.value, "avatarUrl") == Some(AvatarUrl(prev, data))
    ensures Truthy(prev) && Truthy(Prop(prev, "fullName")) ==> Get(r.value, "fullName") == Prop(prev, "fullName")
    ensures Truthy(prev) && !Truthy(Prop(prev, "fullName")) && (Truthy(Get(data, "firstName")) || Truthy(Get(data, "lastName"))) ==>
              Get(r.value, "fullName") == Some(JStr(ProfileName(data)))
    ensures Truthy(prev) && !Truthy(Prop(prev, "fullName")) && !(Truthy(Get(data, "firstName")) || Truthy(Get(data, "lastName"))) ==>
              Get(r.value, "fullName") == Prop(prev, "fullName")
    ensures Truthy(prev) ==> forall k :: k != "avatarUrl" && k != "fullName" ==> Get(r.value, k) == Get(JObj(Members(prev)), k)
  {
    if !Truthy(prev) then prev
    else
      var withAvatar := Put(Members(prev), "avatarUrl", AvatarUrl(prev, data));
      if !Truthy(Prop(prev, "fullName")) && (Truthy(Get(data, "firstName")) || Truthy(Get(data, "lastName"))) then
        Some(JObj(Put(withAvatar, "fullName", JStr(ProfileName(data)))))
      else
        assert Prop(prev, "fullName") == Get(JObj(Members(prev)), "fullName");
        Some(JObj(withAvatar))
  }

  /** What is written back to `th_user`: the user with the new avatar only. */
  function Persisted(user: Option<Json>, data: Json): (r: Json)
    ensures r.JObj?
    ensures Get(r, "avatarUrl") == Some(AvatarUrl(user, data))
    ensures forall k :: k != "avatarUrl" ==> Get(r, k) == Get(JObj(Members(user)), k)
  {
    JObj(Put(Members(user), "avatarUrl", AvatarUrl(user, data)))
  }

  /** The merged name lives only in the page's state: the user written back keeps the stored
    * full name, whatever the profile's name is. */
  lemma NameNotPersisted(user: Option<Json>, data: Json)
    requires user.Some? && user.value.JObj?
    ensures Get(Persisted(user, data), "fullName") == Prop(user, "fullName")
  {
  }

  /** `loadEmployeeAvatar`: only for an employee. The profile comes through the request
    * client, whose token writes stay whatever the page does. A failed call, a refusal, a body
    * that is not JSON or is `null` change nothing else; otherwise the user is merged with the
    * profile and the new avatar is written back to storage. */
  method LoadEmployeeAvatar(store: Storage.Store, server: Server, user: Option<Json>) returns (next: Option<Json>, calls: seq<Call>)
    modifies store, server
    ensures !(Truthy(user) && IsEmployee(user)) ==> calls == [] && next == user && store.entries == old(store.entries) && unchanged(server)
    ensures Truthy(user) && IsEmployee(user) ==>
              var run := Fetched(old(store.entries), old(server.script), ProfileCall);
              var answer := run.result;
              && calls == [ProfileCall]
              && server.sent == old(server.sent) + run.sent && server.script == run.script
              && (OkJson(answer).None? || OkJson(answer) == Some(JNull) ==> next == user && store.entries == run.entries)
              && (OkJson(answer).Some? && OkJson(answer).value != JNull ==>
                    && next == Merged(user, OkJson(answer).value)
                    && store.entries == run.entries[UserKey := Stringify(Persisted(user, OkJson(answer).value))])
  {
    next := user;
    calls := [];
    if !Truthy(user) || Prop(user, "role") != Some(JStr(RoleEmployee)) {
      return;
    }
    calls := [ProfileCall];
    var answer := ApiClient.ApiFetch(store, server, ProfileCall.target, ProfileCall.options, true);
    if answer.Failure? || !answer.value.Ok() || answer.value.json.None? || answer.value.json.value == JNull {
      return;
    }
    var data := answer.value.json.value;
    next := Merged(user, data);
    var updated := Put(Members(user), "avatarUrl", AvatarUrl(user, data));
    store.Set(UserKey, Stringify(JObj(updated)));
  }

  /** `logout`: exactly the two tokens and the user are removed, then the login page. */
  method Logout(store: Storage.Store) returns (user: Option<Json>, nav: Nav)
    modifies store
    ensures store.entries == old(store.entries) - {ApiClient.TokenKey, ApiClient.RefreshKey, UserKey}
    ensures forall k :: k != ApiClient.TokenKey && k != ApiClient.RefreshKey && k != UserKey ==>
              Storage.Lookup(store.entries, k) == Storage.Lookup(old(store.entries), k)
    ensures user == None && nav == GoTo(LoginPath)
  {
    store.Remove("token");
    store.Remove("refreshToken");
    store.Remove(UserKey);
    user := None;
    nav := GoTo(LoginPath);
  }

  /** After logging out, the request client sends a request with the caller's headers only: no
    * credential is left to attach. */
  lemma LoggedOutSendsNoCredential(entries: map<string, string>, options: Options)
    ensures ApiClient.WithBearer(entries - {ApiClient.TokenKey, ApiClient.RefreshKey, UserKey}, options) == options
  {
  }
}
