/** What the steps of the employee registration wizard share: the `flow=register` query flag
  * that tells a wizard step from the same form opened from the profile, and where a saved step
  * goes next. */
module Onboarding {
  import opened Wrappers
  import opened Json
  import UrlCodec

  const Flag := "flow=register"
  const ProfilePath := "/profile"

  /** `new URLSearchParams(location.search).get("flow") === "register"`. */
  predicate RegisterFlow(search: string) {
    UrlCodec.QueryGet(search, "flow") == Some("register")
  }

  /** Where a saved step goes: inside the wizard the next step, with the flag kept; otherwise
    * back to the profile. */
  function After(search: string, step: string): (r: string)
    ensures RegisterFlow(search) ==> r == step + "?" + Flag
    ensures !RegisterFlow(search) ==> r == ProfilePath
  {
    if RegisterFlow(search) then step + "?" + Flag else ProfilePath
  }

  /** The query the wizard appends carries the flag. */
  lemma FlagQuery()
    ensures UrlCodec.QueryGet("?" + Flag, "flow") == Some("register")
  {
    FlagParts();
    UrlCodec.QueryGetSingle("flow", "register");
  }

  /** The flag is one plain `name=value` pair. */
  lemma FlagParts()
    ensures "?" + Flag == "?" + "flow" + "=" + "register"
    ensures UrlCodec.Plain("flow") && UrlCodec.Plain("register")
  {
  }

  /** A step reached with the flag appended is inside the wizard. */
  lemma {:induction false} FlagKept(step: string)
    requires '?' !in step
    ensures RegisterFlow(UrlCodec.SearchOf(step + "?" + Flag))
  {
    UrlCodec.SearchOfPath(step, Flag);
    FlagQuery();
  }

  /** A step reached by a path with no query is outside the wizard. */
  lemma {:induction false} FlagDropped(path: string)
    requires '?' !in path
    ensures !RegisterFlow(UrlCodec.SearchOf(path))
  {
    UrlCodec.QueryGetEmpty("flow");
  }

  /** `` `Bearer ${localStorage.getItem("token")}` ``: the steps that call `fetch` themselves send
    * the header even without a token, as "Bearer null". */
  function Bearer(token: Option<string>): (r: string)
    ensures token.Some? ==> r == "Bearer " + token.value
    ensures token.None? ==> r == "Bearer null"
  {
    "Bearer " + (if token.Some? then token.value else "null")
  }

  /** `JSON.stringify` of a list of strings. */
  function Strs(items: seq<string>): (r: seq<Json>)
    ensures |r| == |items|
    ensures forall i :: 0 <= i < |items| ==> r[i] == JStr(items[i])
  {
    if items == [] then [] else [JStr(items[0])] + Strs(items[1..])
  }
}
