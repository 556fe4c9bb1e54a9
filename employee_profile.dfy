/** The employee's own profile page: its load and the texts it derives from the profile. */
module EmployeeProfile {
  import opened Wrappers
  import opened Json
  import opened Http
  import opened Web
  import Lists
  import Text

  const LoadFailed := "Не удалось загрузить профиль"
  const NoCategories := "Не указано"
  const NoExperience := "не указан"

  datatype Profile = Profile(profile: Option<Json>, loading: bool, error: string)

  const Initial := Profile(None, true, "")

  const ProfileCall := Call("/api/profile/employee/me", Options("GET", map[], NoBody))

  /** `loadProfile`: a non-ok reply shows its text (or the default), any thrown error, the body
    * parse included, the connection error; otherwise the parsed body is the profile. */
  method LoadProfile(page: Profile, answer: Answer) returns (next: Profile, call: Call)
    ensures call == ProfileCall && !next.loading
    ensures answer.Success? && !answer.value.Ok() ==> next == page.(error := OrElse(answer.value.text, LoadFailed), loading := false)
    ensures answer.Failure? || (answer.value.Ok() && answer.value.json.None?) ==> next == page.(error := ConnectionError, loading := false)
    ensures OkJson(answer).Some? ==> next == page.(profile := OkJson(answer), loading := false)
  {
    call := ProfileCall;
    next := page;
    if answer.Failure? {
      next := next.(error := ConnectionError, loading := false);
      return;
    }
    var res := answer.value;
    if !res.Ok() {
      next := next.(error := OrElse(res.text, LoadFailed), loading := false);
      return;
    }
    if res.json.None? {
      next := next.(error := ConnectionError, loading := false);
      return;
    }
    next := next.(profile := res.json, loading := false);
  }

  /** `formatName`: the first and last name that are present, in that order, joined by one
    * space; "" without a profile or without either name. */
  function FormatName(profile: Option<Json>): (r: string)
    ensures !Truthy(profile) ==> r == ""
    ensures Truthy(profile) ==>
              var first := Prop(profile, "firstName");
              var last := Prop(profile, "lastName");
              && (Truthy(first) && Truthy(last) ==> r == ToJsString(first.value) + " " + ToJsString(last.value))
              && (Truthy(first) && !Truthy(last) ==> r == ToJsString(first.value))
              && (!Truthy(first) && Truthy(last) ==> r == ToJsString(last.value))
              && (!Truthy(first) && !Truthy(last) ==> r == "")
  {
    if !Truthy(profile) then ""
    else
      var candidates := [Prop(profile, "firstName"), Prop(profile, "lastName")];
      var parts := Lists.Filter(candidates, (v: Option<Json>) => Truthy(v));
      assert parts == Lists.Filter([candidates[0]], (v: Option<Json>) => Truthy(v)) + Lists.Filter([candidates[1]], (v: Option<Json>) => Truthy(v)) by {
        assert candidates == [candidates[0]] + [candidates[1]];
        Lists.FilterAppend([candidates[0]], [candidates[1]], (v: Option<Json>) => Truthy(v));
      }
      if parts == [] then "" else Text.Join(Strings(parts), " ")
  }

  /** `String(v)` of each present value. */
  function Strings(values: seq<Option<Json>>): (r: seq<string>)
    ensures |r| == |values|
    ensures forall i :: 0 <= i < |values| ==> r[i] == Interp(values[i])
  {
    if values == [] then [] else [Interp(values[0])] + Strings(values[1..])
  }

  /** `\w` of a regular expression without the `u` flag: ASCII letters, digits and `_`. */
  predicate WordChar(c: char) {
    'a' <= c <= 'z' || 'A' <= c <= 'Z' || '0' <= c <= '9' || c == '_'
  }

  /** `s.replace(/_/g, " ")`. */
  function Unscore(s: string): (r: string)
    ensures |r| == |s|
    ensures forall i :: 0 <= i < |s| ==> r[i] == if s[i] == '_' then ' ' else s[i]
  {
    if s == [] then [] else [if s[0] == '_' then ' ' else s[0]] + Unscore(s[1..])
  }

  /** A word character that starts a word: `\b\w`. */
  predicate WordStart(s: string, i: int)
    requires 0 <= i < |s|
  {
    WordChar(s[i]) && (i == 0 || !WordChar(s[i - 1]))
  }

  /** `s.replace(/\b\w/g, ch => ch.toUpperCase())`: the first character of every word
    * upper-cased, all others kept. */
  function Capitalize(s: string): (r: string)
    ensures |r| == |s|
    ensures forall i :: 0 <= i < |s| ==> r[i] == if WordStart(s, i) then Text.UpperChar(s[i]) else s[i]
  {
    if s == [] then []
    else
      var n := |s| - 1;
      var init := Capitalize(s[..n]);
      assert forall i :: 0 <= i < n ==> s[..n][i] == s[i] && (WordStart(s[..n], i) <==> WordStart(s, i));
      init + [if WordStart(s, n) then Text.UpperChar(s[n]) else s[n]]
  }

  /** One category as shown: lower-cased, underscores made spaces, each word capitalised. */
  function FormatCategory(c: string): (r: string)
    ensures |r| == |c|
    ensures forall i :: 0 <= i < |r| ==> r[i] != '_'
  {
    var u := Unscore(Text.Lower(c));
    var r := Capitalize(u);
    assert forall i :: 0 <= i < |r| ==> r[i] != '_' by {
      forall i | 0 <= i < |r| ensures r[i] != '_' {
        if WordStart(u, i) {
          assert 'a' <= u[i] <= 'z' || 'A' <= u[i] <= 'Z' || '0' <= u[i] <= '9';
        }
      }
    }
    r
  }

  /** Every category formatted, in order. */
  function FormatAll(cats: seq<string>): (r: seq<string>)
    ensures |r| == |cats|
    ensures forall i :: 0 <= i < |cats| ==> r[i] == FormatCategory(cats[i])
  {
    if cats == [] then [] else [FormatCategory(cats[0])] + FormatAll(cats[1..])
  }

  /** `formatCategories`: "Не указано" for no categories, otherwise the formatted categories
    * joined with ", "; `None` is a `null` or missing list. */
  function FormatCategories(cats: Option<seq<string>>): (r: string)
    ensures cats.None? || cats.value == [] ==> r == NoCategories
    ensures cats.Some? && |cats.value| == 1 ==> r == FormatCategory(cats.value[0])
    ensures cats.Some? && cats.value != [] ==> r == Text.Join(FormatAll(cats.value), ", ")
  {
    if cats.None? || cats.value == [] then NoCategories else Text.Join(FormatAll(cats.value), ", ")
  }

  /** A server enum becomes two capitalised words. */
  lemma CategoryExample()
    ensures FormatCategory("IT_HR") == "It Hr"
  {
    Text.LowerEach("IT_HR", "it_hr");
    assert Unscore("it_hr") == "it hr";
    CapitalizeExample();
  }

  lemma CapitalizeExample()
    ensures Capitalize("it hr") == "It Hr"
  {
    var u := "it hr";
    assert WordStart(u, 0) && WordStart(u, 3);
    assert !WordStart(u, 1) && !WordStart(u, 2) && !WordStart(u, 4);
  }

  /** `v?.[0]`: the first character of a non-empty string. */
  function FirstChar(v: Option<Json>): (r: Option<char>)
    ensures r.Some? <==> v.Some? && v.value.JStr? && v.value.s != ""
    ensures r.Some? ==> r.value == v.value.s[0]
  {
    if v.Some? && v.value.JStr? && v.value.s != "" then Some(v.value.s[0]) else None
  }

  /** The avatar: the first letter of the first name, else of the last name, else "U", upper-cased. */
  function Avatar(profile: Option<Json>): (r: string)
    ensures |r| == 1
    ensures FirstChar(Prop(profile, "firstName")).Some? ==> r == [Text.UpperChar(FirstChar(Prop(profile, "firstName")).value)]
    ensures FirstChar(Prop(profile, "firstName")).None? && FirstChar(Prop(profile, "lastName")).Some? ==>
              r == [Text.UpperChar(FirstChar(Prop(profile, "lastName")).value)]
    ensures FirstChar(Prop(profile, "firstName")).None? && FirstChar(Prop(profile, "lastName")).None? ==> r == "U"
  {
    match FirstChar(Prop(profile, "firstName"))
    case Some(c) => [Text.UpperChar(c)]
    case None =>
      match FirstChar(Prop(profile, "lastName"))
      case Some(c) => [Text.UpperChar(c)]
      case None => [Text.UpperChar('U')]
  }

  /** The experience line: "N лет" for any value but `null` and `undefined` (zero included). */
  function ExperienceText(experience: Option<Json>): (r: string)
    ensures experience.None? || experience == Some(JNull) ==> r == NoExperience
    ensures experience.Some? && experience != Some(JNull) ==> r == ToJsString(experience.value) + " лет"
  {
    if experience.None? || experience == Some(JNull) then NoExperience else Interp(experience) + " лет"
  }
}
