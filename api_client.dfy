/** The authenticated request client: every call carries the stored access token as a Bearer
  * credential (section 2.1 of RFC 6750); a 401 Unauthorized reply (section 15.5.2 of RFC 9110)
  * triggers one refresh of the token pair and one replay of the request.
  *
  * `Exchange` is the reference: a pure function of the stored entries and the server's script.
  * The methods below run the same steps against a `Store` and a `Server` and are proved to end
  * in the state `Exchange` predicts; the lemmas state the client's promises about `Exchange`. */
module ApiClient {
  import opened Wrappers
  import opened Json
  import opened Http
  import opened Storage
  import Text

  const ApiBase := "http://localhost:8080"
  const RefreshPath := "/api/auth/refresh"

  /** The storage keys of the token pair. */
  const TokenKey := "token"
  const RefreshKey := "refreshToken"

  /** Why a call did not produce a usable answer; each case is one `throw` of the client. */
  datatype Failure =
    | NoRefreshToken                       // `refreshTokenRequest` with no stored refresh token
    | RefreshRejected(text: string)        // the refresh endpoint answered with a non-ok status
    | NullRefreshReply                     // the refresh reply was JSON `null`: `data.token` throws
    | BadJson                              // `res.json()` on a body that is not JSON
    | Transport                            // `fetch` itself rejected
    | HttpError(status: int, text: string) // `apiGetJson` on a non-ok reply

  /** The `message` of the thrown error. The texts of the errors the browser raises
    * (`Transport`, `BadJson`, `NullRefreshReply`) are those of Chromium. */
  function Message(f: Failure): (m: string)
    ensures f.RefreshRejected? ==> m == if f.text != "" then f.text else "Refresh failed"
    ensures f.HttpError? && f.text != "" ==> m == f.text
    ensures f.HttpError? && f.text == "" ==> m == "Request failed with status " + Text.IntToString(f.status)
    ensures m != ""
  {
    match f
    case NoRefreshToken => "No refresh token"
    case RefreshRejected(t) => if t != "" then t else "Refresh failed"
    case NullRefreshReply => "Cannot read properties of null (reading 'token')"
    case BadJson => "Unexpected end of JSON input"
    case Transport => "Failed to fetch"
    case HttpError(s, t) => if t != "" then t else "Request failed with status " + Text.IntToString(s)
  }

  /** `getTokens()`: the stored access and refresh tokens, `None` where absent. */
  function Tokens(entries: map<string, string>): (r: (Option<string>, Option<string>))
    ensures r.0.Some? <==> TokenKey in entries
    ensures r.1.Some? <==> RefreshKey in entries
    ensures r.0.Some? ==> r.0.value == entries[TokenKey]
    ensures r.1.Some? ==> r.1.value == entries[RefreshKey]
  {
    (Lookup(entries, TokenKey), Lookup(entries, RefreshKey))
  }

  /** The options `apiFetch` hands to `fetch`: the caller's, with `Authorization: Bearer <token>`
    * set when a token is stored. The Content-Type branch of the source has an empty body, so
    * nothing else is added. */
  function WithBearer(entries: map<string, string>, options: Options): (r: Options)
    ensures r.verb == options.verb && r.body == options.body
    ensures forall h :: h != "Authorization" ==> (h in r.headers <==> h in options.headers)
    ensures forall h :: h != "Authorization" && h in r.headers ==> r.headers[h] == options.headers[h]
    ensures HasValue(entries, TokenKey) ==>
              "Authorization" in r.headers && r.headers["Authorization"] == "Bearer " + entries[TokenKey]
    ensures !HasValue(entries, TokenKey) ==> r.headers == options.headers
  {
    if HasValue(entries, TokenKey)
    then options.(headers := options.headers["Authorization" := "Bearer " + entries[TokenKey]])
    else options
  }

  /** The entries after `saveTokens(data)`: each of `token` and `refreshToken` is written, as
    * `String(value)`, exactly when the reply's field is truthy; every other entry is kept. */
  function TokensSaved(entries: map<string, string>, data: Json): (r: map<string, string>)
    ensures forall k :: k != TokenKey && k != RefreshKey ==> (k in r <==> k in entries)
    ensures forall k :: k != TokenKey && k != RefreshKey && k in r ==> r[k] == entries[k]
    ensures Truthy(Get(data, TokenKey)) ==> TokenKey in r && r[TokenKey] == ToJsString(Get(data, TokenKey).value)
    ensures !Truthy(Get(data, TokenKey)) ==> Lookup(r, TokenKey) == Lookup(entries, TokenKey)
    ensures Truthy(Get(data, RefreshKey)) ==> RefreshKey in r && r[RefreshKey] == ToJsString(Get(data, RefreshKey).value)
    ensures !Truthy(Get(data, RefreshKey)) ==> Lookup(r, RefreshKey) == Lookup(entries, RefreshKey)
  {
    var t := Get(data, TokenKey);
    var rt := Get(data, RefreshKey);
    var e1 := if Truthy(t) then entries[TokenKey := ToJsString(t.value)] else entries;
    if Truthy(rt) then e1[RefreshKey := ToJsString(rt.value)] else e1
  }

  /** The entries after `clearTokens()`: both tokens gone, everything else kept. */
  function TokensCleared(entries: map<string, string>): (r: map<string, string>)
    ensures TokenKey !in r && RefreshKey !in r
    ensures forall k :: k != TokenKey && k != RefreshKey ==> (k in r <==> k in entries)
    ensures forall k :: k in r ==> r[k] == entries[k]
  {
    entries - {TokenKey, RefreshKey}
  }

  /** The refresh call: a JSON POST of `{refreshToken}` to the refresh endpoint. */
  function RefreshRequest(refreshToken: string): (r: Request)
    ensures r.url == ApiBase + RefreshPath && r.options.verb == "POST"
    ensures r.options.headers == map["Content-Type" := "application/json"]
    ensures r.options.body == JsonBody(JObj([(RefreshKey, JStr(refreshToken))]))
    ensures Get(r.options.body.value, RefreshKey) == Some(JStr(refreshToken))
  {
    Request(ApiBase + RefreshPath,
            Options("POST", map["Content-Type" := "application/json"], JsonBody(JObj([(RefreshKey, JStr(refreshToken))]))))
  }

  /** One run of the client: what it returned or threw, the stored entries afterwards, the
    * requests it sent in order, and what is left of the server's script. */
  datatype Run<T> = Run(result: Result<T, Failure>, entries: map<string, string>, sent: seq<Request>, script: seq<Delivery>)

  /** `refreshTokenRequest()`: read the refresh token, POST it, save what comes back.
    * Succeeds with the reply's `token` field (`None` when it has none). */
  function Refresh(entries: map<string, string>, script: seq<Delivery>): (run: Run<Option<Json>>)
    ensures !HasValue(entries, RefreshKey) ==> run == Run(Failure(NoRefreshToken), entries, [], script)
    ensures HasValue(entries, RefreshKey) ==> run.sent == [RefreshRequest(entries[RefreshKey])]
    ensures run.result.Failure? ==> run.entries == entries
    ensures |run.sent| <= 1
  {
    if !HasValue(entries, RefreshKey) then Run(Failure(NoRefreshToken), entries, [], script)
    else
      var req := RefreshRequest(entries[RefreshKey]);
      var (d, rest) := Next(script);
      match d
      case Unreachable => Run(Failure(Transport), entries, [req], rest)
      case Delivered(reply) =>
        if !reply.Ok() then Run(Failure(RefreshRejected(reply.text)), entries, [req], rest)
        else
          match reply.json
          case None => Run(Failure(BadJson), entries, [req], rest)
          case Some(data) =>
            if data.JNull? then Run(Failure(NullRefreshReply), entries, [req], rest)
            else Run(Success(Get(data, TokenKey)), TokensSaved(entries, data), [req], rest)
  }

  /** The first request `apiFetch(path, options)` sends from these stored entries. */
  function Outgoing(entries: map<string, string>, path: string, options: Options): Request {
    Request(ApiBase + path, WithBearer(entries, options))
  }

  /** `apiFetch(path, options, retry)` as a function of the stored entries and the script. */
  function Exchange(entries: map<string, string>, script: seq<Delivery>, path: string, options: Options, retry: bool): (run: Run<Reply>)
    ensures run.sent != [] && run.sent[0] == Outgoing(entries, path, options)
    decreases if retry then 1 else 0
  {
    var req := Outgoing(entries, path, options);
    var (d, rest) := Next(script);
    match d
    case Unreachable => Run(Failure(Transport), entries, [req], rest)
    case Delivered(reply) =>
      if reply.status == 401 && retry then
        var refreshed := Refresh(entries, rest);
        if refreshed.result.Failure? then
          Run(Failure(refreshed.result.error), TokensCleared(entries), [req] + refreshed.sent, refreshed.script)
        else
          var again := Exchange(refreshed.entries, refreshed.script, path, options, false);
          Run(again.result, again.entries, [req] + refreshed.sent + again.sent, again.script)
      else
        Run(Success(reply), entries, [req], rest)
  }

  /** `apiGetJson`: a non-ok reply becomes `HttpError`, an ok one its parsed body. */
  function JsonOf(result: Result<Reply, Failure>): (r: Result<Json, Failure>)
    ensures result.Failure? ==> r == Failure(result.error)
    ensures result.Success? && !result.value.Ok() ==> r == Failure(HttpError(result.value.status, result.value.text))
    ensures r.Success? <==> result.Success? && result.value.Ok() && result.value.json.Some?
    ensures r.Success? ==> r.value == result.value.json.value
  {
    match result
    case Failure(f) => Failure(f)
    case Success(reply) =>
      if !reply.Ok() then Failure(HttpError(reply.status, reply.text))
      else if reply.json.None? then Failure(BadJson)
      else Success(reply.json.value)
  }

  // ---------------------------------------------------------------------------------------
  // The client's steps, run against the store and the server.

  /** `saveTokens(data)`. Reading a field of `null` throws before anything is written. */
  method SaveTokens(store: Store, data: Json) returns (threw: bool)
    modifies store
    ensures threw <==> data.JNull?
    ensures store.entries == if threw then old(store.entries) else TokensSaved(old(store.entries), data)
  {
    if data.JNull? {
      return true;
    }
    threw := false;
    var token := Get(data, TokenKey);
    if Truthy(token) {
      store.Set(TokenKey, ToJsString(token.value));
    }
    var refreshToken := Get(data, RefreshKey);
    if Truthy(refreshToken) {
      store.Set(RefreshKey, ToJsString(refreshToken.value));
    }
  }

  /** `clearTokens()`. */
  method ClearTokens(store: Store)
    modifies store
    ensures store.entries == TokensCleared(old(store.entries))
  {
    store.Remove(TokenKey);
    store.Remove(RefreshKey);
  }

  /** `refreshTokenRequest()`. */
  method RefreshTokenRequest(store: Store, server: Server) returns (result: Result<Option<Json>, Failure>)
    modifies store, server
    ensures var run := Refresh(old(store.entries), old(server.script));
            result == run.result && store.entries == run.entries &&
            server.sent == old(server.sent) + run.sent && server.script == run.script
  {
    var refreshToken := store.Get(RefreshKey);
    if refreshToken.None? || refreshToken.value == "" {
      return Failure(NoRefreshToken);
    }
    var d := server.Fetch(RefreshRequest(refreshToken.value));
    if d.Unreachable? {
      return Failure(Transport);
    }
    var res := d.reply;
    if !res.Ok() {
      return Failure(RefreshRejected(res.text));
    }
    if res.json.None? {
      return Failure(BadJson);
    }
    var threw := SaveTokens(store, res.json.value);
    if threw {
      return Failure(NullRefreshReply);
    }
    result := Success(Get(res.json.value, TokenKey));
  }

  /** `apiFetch(path, options, retry)`. */
  method ApiFetch(store: Store, server: Server, path: string, options: Options, retry: bool)
    returns (result: Result<Reply, Failure>)
    modifies store, server
    ensures var run := Exchange(old(store.entries), old(server.script), path, options, retry);
            result == run.result && store.entries == run.entries &&
            server.sent == old(server.sent) + run.sent && server.script == run.script
    decreases if retry then 1 else 0
  {
    var token := store.Get(TokenKey);
    var headers := options.headers;
    if token.Some? && token.value != "" {
      headers := headers["Authorization" := "Bearer " + token.value];
    }
    var d := server.Fetch(Request(ApiBase + path, options.(headers := headers)));
    if d.Unreachable? {
      return Failure(Transport);
    }
    var res := d.reply;
    if res.status == 401 && retry {
      ghost var before := store.entries;
      ghost var sentBefore := server.sent;
      var refreshed := RefreshTokenRequest(store, server);
      if refreshed.Failure? {
        ClearTokens(store);
        return Failure(refreshed.error);
      }
      result := ApiFetch(store, server, path, options, false);
      return;
    }
    result := Success(res);
  }

  /** `apiGetJson(path, options, retry)`. */
  method ApiGetJson(store: Store, server: Server, path: string, options: Options, retry: bool)
    returns (result: Result<Json, Failure>)
    modifies store, server
    ensures var run := Exchange(old(store.entries), old(server.script), path, options, retry);
            result == JsonOf(run.result) && store.entries == run.entries &&
            server.sent == old(server.sent) + run.sent && server.script == run.script
  {
    var res := ApiFetch(store, server, path, options, retry);
    if res.Failure? {
      return Failure(res.error);
    }
    if !res.value.Ok() {
      return Failure(HttpError(res.value.status, res.value.text));
    }
    if res.value.json.None? {
      return Failure(BadJson);
    }
    result := Success(res.value.json.value);
  }

  // ---------------------------------------------------------------------------------------
  // What the client promises.

  /** One call sends at most three requests (the request, the refresh, the replay), and
    * exactly one when retrying is off. */
  lemma BoundedSends(entries: map<string, string>, script: seq<Delivery>, path: string, options: Options, retry: bool)
    ensures |Exchange(entries, script, path, options, retry).sent| <= 3
    ensures !retry ==> |Exchange(entries, script, path, options, retry).sent| == 1
  {
    var (d, rest) := Next(script);
    if d.Delivered? && d.reply.status == 401 && retry {
      var refreshed := Refresh(entries, rest);
      if refreshed.result.Success? {
        var again := Exchange(refreshed.entries, refreshed.script, path, options, false);
        assert |again.sent| == 1;
      }
    }
  }

  /** Any reply other than a 401, and a 401 when retrying is off, is handed back as it is,
    * after one request and with storage untouched. */
  lemma PassThrough(entries: map<string, string>, script: seq<Delivery>, path: string, options: Options, retry: bool)
    requires script != [] && script[0].Delivered?
    requires script[0].reply.status != 401 || !retry
    ensures Exchange(entries, script, path, options, retry)
         == Run(Success(script[0].reply), entries, [Outgoing(entries, path, options)], script[1..])
  {
  }

  /** Whatever makes the refresh fail, both tokens are cleared, the other entries kept, the
    * refresh's error is rethrown and the request is not replayed. */
  lemma ClearOnFailure(entries: map<string, string>, script: seq<Delivery>, path: string, options: Options)
    requires script != [] && script[0].Delivered? && script[0].reply.status == 401
    requires Refresh(entries, script[1..]).result.Failure?
    ensures var run := Exchange(entries, script, path, options, true);
            run.result == Failure(Refresh(entries, script[1..]).result.error) &&
            run.entries == TokensCleared(entries) &&
            |run.sent| == 1 + |Refresh(entries, script[1..]).sent| <= 2
  {
  }

  /** Whatever happens, a call changes no stored entry except the two tokens. */
  lemma {:induction false} OnlyTokensChange(entries: map<string, string>, script: seq<Delivery>, path: string, options: Options, retry: bool)
    ensures var run := Exchange(entries, script, path, options, retry);
            forall k :: k != TokenKey && k != RefreshKey ==> Lookup(run.entries, k) == Lookup(entries, k)
    decreases if retry then 1 else 0
  {
    var (d, rest) := Next(script);
    if d.Delivered? && d.reply.status == 401 && retry {
      var refreshed := Refresh(entries, rest);
      if refreshed.result.Success? {
        OnlyTokensChange(refreshed.entries, refreshed.script, path, options, false);
      }
    }
  }

  /** A run that fails has lost the first request to the network, leaving storage as it was;
    * or has cleared both tokens after a failed refresh; or has lost the replay to the network
    * after a refresh whose tokens stay saved. */
  lemma FailureOutcomes(entries: map<string, string>, script: seq<Delivery>, path: string, options: Options, retry: bool)
    requires Exchange(entries, script, path, options, retry).result.Failure?
    ensures var run := Exchange(entries, script, path, options, retry);
            (run.result.error == Transport && run.entries == entries && |run.sent| == 1) ||
            (run.entries == TokensCleared(entries) && |run.sent| <= 2) ||
            (run.result.error == Transport && |run.sent| == 3 && retry &&
             run.entries == Refresh(entries, script[1..]).entries)
  {
    var (d, rest) := Next(script);
    if d.Delivered? && d.reply.status == 401 && retry {
      var refreshed := Refresh(entries, rest);
      if refreshed.result.Success? {
        var again := Exchange(refreshed.entries, refreshed.script, path, options, false);
        assert again.result.Failure?;
        assert again.result.error == Transport && again.entries == refreshed.entries;
      }
    }
  }

  /** A 401 with no stored refresh token: no refresh request, tokens cleared, "No refresh token"
    * rethrown. */
  lemma NoRefreshTokenStops(entries: map<string, string>, script: seq<Delivery>, path: string, options: Options)
    requires script != [] && script[0].Delivered? && script[0].reply.status == 401
    requires !HasValue(entries, RefreshKey)
    ensures var run := Exchange(entries, script, path, options, true);
            run.result == Failure(NoRefreshToken) && Message(run.result.error) == "No refresh token" &&
            run.sent == [Outgoing(entries, path, options)] &&
            run.entries == TokensCleared(entries) && run.script == script[1..]
  {
  }

  /** A refresh answered with a non-ok status throws its text, or "Refresh failed" for an empty
    * body; nothing is replayed. */
  lemma RefreshRejectedStops(entries: map<string, string>, script: seq<Delivery>, path: string, options: Options)
    requires |script| >= 2 && script[0].Delivered? && script[0].reply.status == 401
    requires HasValue(entries, RefreshKey)
    requires script[1].Delivered? && !script[1].reply.Ok()
    ensures var run := Exchange(entries, script, path, options, true);
            var text := script[1].reply.text;
            run.result == Failure(RefreshRejected(text)) &&
            Message(run.result.error) == (if text != "" then text else "Refresh failed") &&
            run.sent == [Outgoing(entries, path, options), RefreshRequest(entries[RefreshKey])] &&
            run.entries == TokensCleared(entries)
  {
  }

  /** A successful refresh: the tokens of the reply are saved and the request is replayed
    * once, with retrying off, from the updated storage; the replay's answer, even a second
    * 401, is the result. */
  lemma RefreshThenReplay(entries: map<string, string>, script: seq<Delivery>, path: string, options: Options, data: Json)
    requires |script| >= 2 && script[0].Delivered? && script[0].reply.status == 401
    requires HasValue(entries, RefreshKey)
    requires script[1].Delivered? && script[1].reply.Ok() && script[1].reply.json == Some(data) && !data.JNull?
    ensures var run := Exchange(entries, script, path, options, true);
            var saved := TokensSaved(entries, data);
            var again := Exchange(saved, script[2..], path, options, false);
            run.sent == [Outgoing(entries, path, options), RefreshRequest(entries[RefreshKey]), Outgoing(saved, path, options)] &&
            run.result == again.result && run.entries == saved && run.script == again.script
  {
    var saved := TokensSaved(entries, data);
    var again := Exchange(saved, script[2..], path, options, false);
    assert again.sent == [Outgoing(saved, path, options)];
  }

  /** The replay re-reads the token from storage: it carries the refreshed token when the reply
    * had a non-empty one, and otherwise the token stored before; a refresh reply without
    * `refreshToken` keeps the old refresh token. */
  lemma ReplayCredential(entries: map<string, string>, data: Json, path: string, options: Options)
    ensures var replay := Outgoing(TokensSaved(entries, data), path, options);
            forall t :: Get(data, TokenKey) == Some(JStr(t)) && t != "" ==>
              replay.options.headers["Authorization"] == "Bearer " + t
    ensures !Truthy(Get(data, TokenKey)) ==>
              Outgoing(TokensSaved(entries, data), path, options) == Outgoing(entries, path, options)
    ensures !Truthy(Get(data, RefreshKey)) ==>
              Lookup(TokensSaved(entries, data), RefreshKey) == Lookup(entries, RefreshKey)
  {
    var saved := TokensSaved(entries, data);
    if !Truthy(Get(data, TokenKey)) {
      assert HasValue(saved, TokenKey) == HasValue(entries, TokenKey);
      assert HasValue(saved, TokenKey) ==> saved[TokenKey] == entries[TokenKey];
    }
  }

  /** The session a user sees: an expired token is refreshed once and the request goes
    * through with the new token. */
  lemma ExpiredTokenScenario()
    ensures var entries := map[TokenKey := "old", RefreshKey := "r1", "th_user" := "u"];
            var data := JObj([(TokenKey, JStr("new"))]);
            var ok := Reply(200, "[]", Some(JArr([])));
            var script := [Delivered(Reply(401, "", None)), Delivered(Reply(200, "", Some(data))), Delivered(ok)];
            var run := Exchange(entries, script, "/api/chats/employee", NoOptions, true);
            run.result == Success(ok) &&
            run.entries == map[TokenKey := "new", RefreshKey := "r1", "th_user" := "u"] &&
            |run.sent| == 3 &&
            run.sent[2].options.headers == map["Authorization" := "Bearer new"]
  {
    var entries := map[TokenKey := "old", RefreshKey := "r1", "th_user" := "u"];
    var data := JObj([(TokenKey, JStr("new"))]);
    assert Get(data, TokenKey) == Some(JStr("new"));
    assert Get(data, RefreshKey) == None;
    var saved := TokensSaved(entries, data);
    assert saved == map[TokenKey := "new", RefreshKey := "r1", "th_user" := "u"];
    var script := [Delivered(Reply(401, "", None)), Delivered(Reply(200, "", Some(data))), Delivered(Reply(200, "[]", Some(JArr([]))))];
    RefreshThenReplay(entries, script, "/api/chats/employee", NoOptions, data);
    assert HasValue(saved, TokenKey) && saved[TokenKey] == "new";
    assert NoOptions.headers == map[];
    assert WithBearer(saved, NoOptions).headers == map[]["Authorization" := "Bearer " + "new"];
    assert "Bearer " + "new" == "Bearer new";
  }
}
