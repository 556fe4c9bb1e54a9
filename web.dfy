/** What the pages share: the signed-in user read from `th_user`, the JavaScript readings of
  * property values (`?.`, `||`, template interpolation), the answers of the request client,
  * and the navigation a handler ends with. */
module Web {
  import opened Wrappers
  import opened Json
  import opened Http
  import ApiClient
  import Text

  const RoleCompany := "ROLE_COMPANY"
  const RoleEmployee := "ROLE_EMPLOYEE"
  const RoleAdmin := "ROLE_ADMIN"

  /** The storage key of the signed-in user, a JSON object with `login`, `role`, ... */
  const UserKey := "th_user"

  /** The text every page shows when the request itself could not be made. */
  const ConnectionError := "Ошибка подключения к серверу"

  /** `v?.key`: `None` (undefined) when `v` is absent or not an object. */
  function Prop(v: Option<Json>, key: string): (r: Option<Json>)
    ensures v.None? ==> r == None
    ensures v.Some? ==> r == Get(v.value, key)
  {
    if v.Some? then Get(v.value, key) else None
  }

  /** `user?.role === role`. */
  predicate HasRole(user: Option<Json>, role: string) {
    Prop(user, "role") == Some(JStr(role))
  }

  /** `${v}` in a template literal (and a header value, which `fetch` turns into a string). */
  function Interp(v: Option<Json>): (r: string)
    ensures v.None? ==> r == "undefined"
    ensures v.Some? ==> r == ToJsString(v.value)
  {
    if v.Some? then ToJsString(v.value) else "undefined"
  }

  /** `a || b`. */
  function Or(a: Option<Json>, b: Option<Json>): (r: Option<Json>)
    ensures Truthy(a) ==> r == a
    ensures !Truthy(a) ==> r == b
  {
    if Truthy(a) then a else b
  }

  /** `a || "text"`. */
  function OrText(a: Option<Json>, text: string): (r: Json)
    ensures Truthy(a) ==> r == a.value
    ensures !Truthy(a) ==> r == JStr(text)
  {
    if Truthy(a) then a.value else JStr(text)
  }

  /** `s || "text"` on a string. */
  function OrElse(s: string, text: string): (r: string)
    ensures s != "" ==> r == s
    ensures s == "" ==> r == text
  {
    if s != "" then s else text
  }

  /** `v || ""` as text: a falsy value gives the empty string. */
  function TextOr(v: Option<Json>): (r: string)
    ensures !Truthy(v) ==> r == ""
    ensures Truthy(v) ==> r == ToJsString(v.value)
  {
    if Truthy(v) then ToJsString(v.value) else ""
  }

  /** `items.map(x => x.key)`. */
  function Pluck(items: seq<Json>, key: string): (r: seq<Option<Json>>)
    ensures |r| == |items| && forall i :: 0 <= i < |items| ==> r[i] == Get(items[i], key)
  {
    if items == [] then [] else [Get(items[0], key)] + Pluck(items[1..], key)
  }

  /** `a === b` on two property reads: primitives compare by value, `undefined` equals only
    * itself, and two objects or arrays read from JSON are never the same object. */
  predicate StrictEquals(a: Option<Json>, b: Option<Json>) {
    a == b && (a.None? || !(a.value.JArr? || a.value.JObj?))
  }

  /** `Array.isArray(v) ? v : []`. */
  function ArrayOrEmpty(v: Json): (r: seq<Json>)
    ensures v.JArr? ==> r == v.items
    ensures !v.JArr? ==> r == []
  {
    if v.JArr? then v.items else []
  }

  /** `items.find(p)`: the first element satisfying `p`. */
  function Find(items: seq<Json>, p: Json -> bool): (r: Option<Json>)
    ensures r.Some? ==> exists i :: 0 <= i < |items| && items[i] == r.value && p(items[i])
                                     && forall j :: 0 <= j < i ==> !p(items[j])
    ensures r.None? ==> forall i :: 0 <= i < |items| ==> !p(items[i])
  {
    if items == [] then None
    else if p(items[0]) then
      assert items[0] == items[0] && p(items[0]);
      Some(items[0])
    else
      var r := Find(items[1..], p);
      if r.Some? then
        var i :| 0 <= i < |items[1..]| && items[1..][i] == r.value && p(items[1..][i])
                 && forall j :: 0 <= j < i ==> !p(items[1..][j]);
        assert items[i + 1] == r.value && p(items[i + 1]);
        assert forall j :: 0 <= j < i + 1 ==> !p(items[j]) by {
          forall j | 0 <= j < i + 1 ensures !p(items[j]) {
            if j > 0 {
              assert items[j] == items[1..][j - 1];
            }
          }
        }
        r
      else
        assert forall i :: 0 < i < |items| ==> items[i] == items[1..][i - 1];
        r
  }

  /** `items.find(x => x.id === id)`. */
  function FindById(items: seq<Json>, id: Option<Json>): (r: Option<Json>)
    ensures r.Some? ==> exists i :: 0 <= i < |items| && items[i] == r.value && StrictEquals(Get(items[i], "id"), id)
                                     && forall j :: 0 <= j < i ==> !StrictEquals(Get(items[j], "id"), id)
    ensures r.None? ==> forall i :: 0 <= i < |items| ==> !StrictEquals(Get(items[i], "id"), id)
  {
    Find(items, x => StrictEquals(Get(x, "id"), id))
  }

  /** `name?.[0]?.toUpperCase() || "?"`: one character, "?" when the name is not a string. */
  function AvatarOf(name: Json): (r: string)
    ensures |r| == 1
    ensures name.JStr? && name.s != "" ==> r == [Text.UpperChar(name.s[0])]
    ensures !name.JStr? || name.s == "" ==> r == "?"
  {
    if name.JStr? then Text.AvatarLetter(name.s, "?") else "?"
  }

  /** What a call of `apiFetch` gives the page: the response, or the error it throws. */
  type Answer = Result<Reply, ApiClient.Failure>

  /** One request a page makes: the path (for `apiFetch`) or the full URL (for `fetch`), and
    * the options. */
  datatype Call = Call(target: string, options: Options)

  /** The run of `apiFetch(call.target, call.options)` as the pages call it, retrying on a 401. */
  function Fetched(entries: map<string, string>, script: seq<Delivery>, call: Call): ApiClient.Run<Reply> {
    ApiClient.Exchange(entries, script, call.target, call.options, true)
  }

  /** Where a handler leaves the browser: on the same page, or at a new path. */
  datatype Nav = Stay | GoTo(path: string)

  /** The next answer of the client and the answers left; with none left the request fails
    * as the network does. */
  function NextAnswer(answers: seq<Answer>): (r: (Answer, seq<Answer>))
    ensures answers == [] ==> r == (Failure(ApiClient.Transport), [])
    ensures answers != [] ==> r == (answers[0], answers[1..])
  {
    if answers == [] then (Failure(ApiClient.Transport), []) else (answers[0], answers[1..])
  }

  /** The answer to the `i`-th request of a sequence; past the end the network fails. */
  function AnswerAt(answers: seq<Answer>, i: nat): Answer {
    if i < |answers| then answers[i] else Failure(ApiClient.Transport)
  }

  /** The answers left after `i` requests. */
  function Drop(answers: seq<Answer>, i: nat): (r: seq<Answer>)
    ensures NextAnswer(r).0 == AnswerAt(answers, i)
  {
    if i < |answers| then answers[i..] else []
  }

  /** The answer of a plain `fetch` as a page sees it: `Transport` when it rejects. */
  function Answered(d: Delivery): (r: Answer)
    ensures d.Unreachable? <==> r == Failure(ApiClient.Transport)
    ensures d.Delivered? ==> r == Success(d.reply)
  {
    if d.Delivered? then Success(d.reply) else Failure(ApiClient.Transport)
  }

  /** `res.json()` on an ok answer: the parsed body, `None` when the call threw, the reply was
    * not ok, or the body is not JSON. */
  function OkJson(a: Answer): (r: Option<Json>)
    ensures r.Some? <==> a.Success? && a.value.Ok() && a.value.json.Some?
    ensures r.Some? ==> r.value == a.value.json.value
  {
    if a.Success? && a.value.Ok() then a.value.json else None
  }

  /** What `if (!res.ok) throw new Error(txt || fallback); await res.json()` throws, if anything:
    * the client's error, the body text or `fallback` for a non-ok reply, or the parse error. */
  function ReadFailure(a: Answer, fallback: string): (r: Option<string>)
    ensures r.None? <==> OkJson(a).Some?
    ensures a.Failure? ==> r == Some(ApiClient.Message(a.error))
    ensures a.Success? && !a.value.Ok() ==> r == Some(OrElse(a.value.text, fallback))
    ensures a.Success? && a.value.Ok() && a.value.json.None? ==> r == Some(ParseFailed)
    ensures r.Some? && fallback != "" ==> r.value != ""
  {
    match a
    case Failure(f) => Some(ApiClient.Message(f))
    case Success(reply) =>
      if !reply.Ok() then Some(OrElse(reply.text, fallback))
      else if reply.json.None? then Some(ParseFailed)
      else None
  }

  /** The error text of a failed save: `data && data.message` when the body is JSON, the body
    * text when it is not, and `fallback` when neither gives anything. */
  function BodyMessage(reply: Reply, fallback: string): (r: string)
    ensures reply.json.Some? && Truthy(Get(reply.json.value, "message")) ==>
              r == ToJsString(Get(reply.json.value, "message").value)
    ensures reply.json.Some? && !Truthy(Get(reply.json.value, "message")) ==> r == fallback
    ensures reply.json.None? ==> r == OrElse(reply.text, fallback)
  {
    match reply.json
    case Some(data) =>
      var m := Get(data, "message");
      if Truthy(m) then ToJsString(m.value) else fallback
    case None => OrElse(reply.text, fallback)
  }

  /** The message of the `TypeError` that `res.text()` rejects with once `res.json()` has read
    * the body (Chromium's text). */
  const BodyUsed := "Failed to execute 'text' on 'Response': body stream already read"

  /** The error text of a failed save as the pages write it: `res.json()` first, and in its
    * `catch` the body text. The failed `res.json()` has already read the body, so that second
    * read throws and its error escapes. `nullSafe` tells `data && data.message` from
    * `data.message`, which throws on a `null` body as well. `Success` is the message set,
    * `Failure` the message of the error that escapes. */
  function BodyMessageAsWritten(reply: Reply, fallback: string, nullSafe: bool): (r: Result<string, string>)
    ensures reply.json.None? ==> r == Failure(BodyUsed)
    ensures reply.json == Some(JNull) && !nullSafe ==> r == Failure(BodyUsed)
    ensures r.Success? ==> r.value == BodyMessage(reply, fallback)
  {
    match reply.json
    case None => Failure(BodyUsed)
    case Some(data) =>
      if data == JNull && !nullSafe then Failure(BodyUsed)
      else
        var m := Get(data, "message");
        Success(if Truthy(m) then ToJsString(m.value) else fallback)
  }

  /** A failed save whose body is plain text: the pages never show that text, while the
    * evidently intended reading shows it, whatever the text and the default are. */
  lemma TextFallbackLost(reply: Reply, fallback: string, nullSafe: bool)
    requires reply.json.None? && reply.text != ""
    ensures BodyMessageAsWritten(reply, fallback, nullSafe) == Failure(BodyUsed)
    ensures BodyMessage(reply, fallback) == reply.text
  {
  }

  /** The plain-text refusal the finding names. */
  lemma TextFallbackLostExample()
    ensures var reply := Reply(400, "Title is too long", None);
            && BodyMessageAsWritten(reply, "Ошибка", true) == Failure(BodyUsed)
            && BodyMessage(reply, "Ошибка") == "Title is too long"
  {
    TextFallbackLost(Reply(400, "Title is too long", None), "Ошибка", true);
  }

  /** What `await res.json()` throws on a body that is not JSON. */
  const ParseFailed := ApiClient.Message(ApiClient.BadJson)

}
