/** The JSON values the client exchanges with the server, with the JavaScript
  * readings the pages apply to them: property access, truthiness and `String(v)`. */
module Json {
  import opened Wrappers
  import Text

  /** A parsed JSON value. Numbers are integers (the application only sends ids and counts);
    * an object keeps its members in source order. */
  datatype Json =
    | JNull
    | JBool(b: bool)
    | JNum(n: int)
    | JStr(s: string)
    | JArr(items: seq<Json>)
    | JObj(members: seq<(string, Json)>)

  /** `v.key` on a parsed value: `None` is `undefined`. `JSON.parse` keeps the last of several
    * members with the same name, so the search runs from the end. */
  function Get(v: Json, key: string): (r: Option<Json>)
    ensures !v.JObj? ==> r == None
    ensures v.JObj? && r.Some? ==> exists i :: LastMember(v.members, key, i) && v.members[i].1 == r.value
    ensures v.JObj? && r.None? ==> forall i :: 0 <= i < |v.members| ==> v.members[i].0 != key
  {
    if v.JObj? then LastValue(v.members, key) else None
  }

  /** The value of the last member named `key`. */
  function LastValue(members: seq<(string, Json)>, key: string): (r: Option<Json>)
    ensures r.Some? ==> exists i :: LastMember(members, key, i) && members[i].1 == r.value
    ensures r.None? ==> forall i :: 0 <= i < |members| ==> members[i].0 != key
  {
    if members == [] then None
    else
      var n := |members| - 1;
      if members[n].0 == key then
        assert LastMember(members, key, n);
        Some(members[n].1)
      else
        var r := LastValue(members[..n], key);
        if r.Some? then
          var i :| LastMember(members[..n], key, i) && members[..n][i].1 == r.value;
          assert LastMember(members, key, i);
          r
        else
          r
  }

  /** Member `i` is named `key` and no later member is. */
  predicate LastMember(members: seq<(string, Json)>, key: string, i: int) {
    0 <= i < |members| && members[i].0 == key && forall j :: i < j < |members| ==> members[j].0 != key
  }

  /** JavaScript truthiness of a property read: `undefined`, `null`, `false`, `0` and `""` are falsy. */
  predicate Truthy(v: Option<Json>) {
    match v
    case None => false
    case Some(JNull) => false
    case Some(JBool(b)) => b
    case Some(JNum(n)) => n != 0
    case Some(JStr(s)) => s != ""
    case Some(JArr(_)) => true
    case Some(JObj(_)) => true
  }

  /** `String(v)`, as `localStorage.setItem` applies it to the value it is given. */
  function ToJsString(v: Json): (r: string)
    ensures v.JStr? ==> r == v.s
    ensures v.JNum? ==> r == Text.IntToString(v.n)
    ensures v.JObj? ==> r == "[object Object]"
  {
    match v
    case JNull => "null"
    case JBool(b) => if b then "true" else "false"
    case JNum(n) => Text.IntToString(n)
    case JStr(s) => s
    case JArr(items) => ArrayToString(items)
    case JObj(_) => "[object Object]"
  }

  /** `String(array)`: the elements joined with ",", `null` elements printing as "". */
  function ArrayToString(items: seq<Json>): (r: string)
    ensures items == [] ==> r == ""
    decreases items, 0
  {
    if items == [] then ""
    else
      var first := if items[0].JNull? then "" else ToJsString(items[0]);
      if |items| == 1 then first else first + "," + ArrayToString(items[1..])
  }

  /** A string property read as a string: `None` unless the member is a JSON string. */
  function GetString(v: Json, key: string): (r: Option<string>)
    ensures r.Some? ==> Get(v, key) == Some(JStr(r.value))
    ensures r.None? ==> Get(v, key).None? || !Get(v, key).value.JStr?
  {
    match Get(v, key)
    case Some(JStr(s)) => Some(s)
    case _ => None
  }

  /** A string member is truthy exactly when it is not empty. */
  lemma TruthyString(v: Json, key: string)
    requires GetString(v, key).Some?
    ensures Truthy(Get(v, key)) <==> GetString(v, key).value != ""
  {
  }

  /** An object literal: members whose value is `undefined` are left out, as `JSON.stringify`
    * leaves them out. */
  function ObjectOf(members: seq<(string, Option<Json>)>): (r: Json)
    ensures r.JObj? && |r.members| <= |members|
  {
    if members == [] then JObj([])
    else
      var rest := ObjectOf(members[1..]);
      var here := if members[0].1.Some? then [(members[0].0, members[0].1.value)] else [];
      JObj(here + rest.members)
  }

  /** The object keeps exactly the members that are present, with their values. */
  lemma {:induction false} ObjectOfMembers(members: seq<(string, Option<Json>)>)
    ensures var r := ObjectOf(members);
            && (forall i :: 0 <= i < |r.members| ==> (r.members[i].0, Some(r.members[i].1)) in members)
            && (forall k, v :: (k, Some(v)) in members ==> (k, v) in r.members)
  {
    if members != [] {
      ObjectOfMembers(members[1..]);
      var rest := ObjectOf(members[1..]).members;
      var here := if members[0].1.Some? then [(members[0].0, members[0].1.value)] else [];
      var r := ObjectOf(members).members;
      assert r == here + rest;
      forall i | 0 <= i < |r|
        ensures (r[i].0, Some(r[i].1)) in members
      {
        if i < |here| {
          assert members[0] == (r[i].0, Some(r[i].1));
        } else {
          assert r[i] == rest[i - |here|];
          assert (r[i].0, Some(r[i].1)) in members[1..];
        }
      }
      forall k, v | (k, Some(v)) in members
        ensures (k, v) in r
      {
        if (k, Some(v)) == members[0] {
          assert r[0] == (k, v);
        } else {
          assert (k, Some(v)) in members[1..];
          assert (k, v) in rest;
        }
      }
    }
  }

  /** Every member named `key` given the value `v`, in place. */
  function Replace(members: seq<(string, Json)>, key: string, v: Json): (r: seq<(string, Json)>)
    ensures |r| == |members|
    ensures forall i :: 0 <= i < |members| ==> r[i] == if members[i].0 == key then (key, v) else members[i]
  {
    seq(|members|, i requires 0 <= i < |members| => if members[i].0 == key then (key, v) else members[i])
  }

  /** Replacing changes only what `key` reads, and only where `key` is present. */
  lemma {:induction false} ReplaceLastValue(members: seq<(string, Json)>, key: string, v: Json, k: string)
    ensures LastValue(Replace(members, key, v), k) == if k != key then LastValue(members, k)
                                                       else if LastValue(members, key).Some? then Some(v) else None
  {
    if members != [] {
      var n := |members| - 1;
      var r := Replace(members, key, v);
      assert r[..n] == Replace(members[..n], key, v);
      ReplaceLastValue(members[..n], key, v, k);
    }
  }

  /** `{...obj, key: v}` on the members of an object: an existing member keeps its place and
    * takes the new value, a new one is added at the end. */
  function Put(members: seq<(string, Json)>, key: string, v: Json): (r: seq<(string, Json)>)
    ensures LastValue(r, key) == Some(v)
    ensures forall k :: k != key ==> LastValue(r, k) == LastValue(members, k)
  {
    forall k ensures LastValue(Replace(members, key, v), k) == if k != key then LastValue(members, k)
                                                              else if LastValue(members, key).Some? then Some(v) else None {
      ReplaceLastValue(members, key, v, k);
    }
    if LastValue(members, key).Some? then Replace(members, key, v)
    else
      var r := members + [(key, v)];
      assert r[..|members|] == members;
      r
  }

  /** The members a spread `...v` copies: an object's own, nothing from anything else. */
  function Members(v: Option<Json>): seq<(string, Json)> {
    if v.Some? && v.value.JObj? then v.value.members else []
  }

  /** One character inside a JSON string literal. */
  function EscapeChar(c: char): (r: string)
    ensures r != "" && (r == [c] || r[0] == '\\')
  {
    if c == '"' then "\\\""
    else if c == '\\' then "\\\\"
    else if c == '\n' then "\\n"
    else if c == '\r' then "\\r"
    else if c == '\t' then "\\t"
    else if c == '\U{0008}' then "\\b"
    else if c == '\U{000C}' then "\\f"
    else if c < ' ' then "\\u00" + [HexLower(c as int / 16), HexLower(c as int % 16)]
    else [c]
  }

  function HexLower(d: int): char
    requires 0 <= d < 16
  {
    if d < 10 then ('0' as int + d) as char else ('a' as int + d - 10) as char
  }

  /** The body of a JSON string literal. */
  function Escape(s: string): (r: string)
    ensures |r| >= |s|
    ensures (forall i :: 0 <= i < |s| ==> ' ' <= s[i] && s[i] != '"' && s[i] != '\\') ==> r == s
  {
    if s == [] then "" else EscapeChar(s[0]) + Escape(s[1..])
  }

  /** `JSON.stringify(v)`. */
  function Stringify(v: Json): (r: string)
    ensures r != ""
    ensures v.JStr? ==> r == "\"" + Escape(v.s) + "\""
    ensures v.JObj? ==> r[0] == '{' && r[|r| - 1] == '}'
    ensures v.JArr? ==> r[0] == '[' && r[|r| - 1] == ']'
  {
    match v
    case JNull => "null"
    case JBool(b) => if b then "true" else "false"
    case JNum(n) => Text.IntToString(n)
    case JStr(s) => "\"" + Escape(s) + "\""
    case JArr(items) => "[" + StringifyItems(items) + "]"
    case JObj(members) =>
      var parts := seq(|members|, i requires 0 <= i < |members| =>
        assert members[i] in members;
        "\"" + Escape(members[i].0) + "\":" + Stringify(members[i].1));
      "{" + Text.Join(parts, ",") + "}"
  }

  function StringifyItems(items: seq<Json>): string
    decreases items, 0
  {
    if items == [] then ""
    else if |items| == 1 then Stringify(items[0])
    else Stringify(items[0]) + "," + StringifyItems(items[1..])
  }


  /** No two members share a name, as in an object the server serialised. */
  predicate DistinctNames(members: seq<(string, Json)>) {
    forall i, j :: 0 <= i < j < |members| ==> members[i].0 != members[j].0
  }

  /** With distinct names, each member is found by its own name. */
  lemma LastValueDistinct(members: seq<(string, Json)>, i: int)
    requires DistinctNames(members) && 0 <= i < |members|
    ensures LastValue(members, members[i].0) == Some(members[i].1)
  {
    var r := LastValue(members, members[i].0);
    if r.Some? {
      var j :| LastMember(members, members[i].0, j) && members[j].1 == r.value;
      assert j == i;
    }
  }
}
