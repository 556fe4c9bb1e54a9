/** The administrator's analytics page: the query strings it sends and the chart data it
  * derives from the reports. */
module AdminAnalytics {
  import opened Wrappers
  import opened Json
  import opened Http
  import opened Web
  import Text
  import UrlCodec

  const CompaniesPath := "/api/admin/companies/options"
  const SeriesPath := "/api/admin/analytics/chats/timeseries"
  const SeriesFailed := "Не удалось загрузить график чатов"

  function E(s: string): string {
    UrlCodec.EncodeUriComponent(s)
  }

  /** `companyQuery`: the company filter as a query piece, empty when no company is chosen. */
  function CompanyQuery(companyId: string): (r: string)
    ensures companyId == "" <==> r == ""
    ensures companyId != "" ==> r == UrlCodec.QueryText([("companyId", E(companyId))])
  {
    if companyId != "" then "companyId=" + E(companyId) else ""
  }

  /** `withParams(baseUrl, extra)`: the non-empty parts, company first, after a `?`. */
  function WithParams(baseUrl: string, companyQuery: string, extra: string): (r: string)
    ensures companyQuery == "" && extra == "" ==> r == baseUrl
    ensures companyQuery != "" && extra != "" ==> r == baseUrl + "?" + companyQuery + "&" + extra
    ensures companyQuery != "" && extra == "" ==> r == baseUrl + "?" + companyQuery
    ensures companyQuery == "" && extra != "" ==> r == baseUrl + "?" + extra
  {
    var parts := (if companyQuery != "" then [companyQuery] else []) + (if extra != "" then [extra] else []);
    var params := Text.Join(parts, "&");
    if params != "" then baseUrl + "?" + params else baseUrl
  }

  /** The inputs of the chat series request. `horizon` is the number field, an integer here. */
  datatype SeriesFilter = SeriesFilter(companyId: string, granularity: string, from: string, to: string, horizon: int)

  /** The `extra` list of `loadSeries` once its empty entries are filtered out. */
  function SeriesParams(f: SeriesFilter): (r: seq<(string, string)>)
    ensures |r| == 3 + (if f.from != "" then 1 else 0) + (if f.to != "" then 1 else 0)
    ensures r[0] == ("granularity", E(f.granularity)) && r[|r| - 1] == ("lookback", "60")
    ensures r[|r| - 2] == ("horizon", E(Text.IntToString(f.horizon)))
    ensures r[1..|r| - 2] == Optional("from", f.from) + Optional("to", f.to)
  {
    [("granularity", E(f.granularity))] + Optional("from", f.from) + Optional("to", f.to)
    + [("horizon", E(Text.IntToString(f.horizon))), ("lookback", "60")]
  }

  /** `value ? `name=${encodeURIComponent(value)}` : ""` as a parameter list. */
  function Optional(name: string, value: string): (r: seq<(string, string)>)
    ensures value == "" ==> r == []
    ensures value != "" ==> r == [(name, E(value))]
  {
    if value != "" then [(name, E(value))] else []
  }

  /** The URL `loadSeries` requests. */
  function SeriesUrl(f: SeriesFilter): string {
    WithParams(SeriesPath, CompanyQuery(f.companyId), UrlCodec.QueryText(SeriesParams(f)))
  }

  /** Every parameter the series URL carries, company first. */
  function SeriesUrlParams(f: SeriesFilter): seq<(string, string)> {
    Optional("companyId", f.companyId) + SeriesParams(f)
  }

  /** The series URL is its path followed by the query text of all its parameters. */
  lemma SeriesUrlShape(f: SeriesFilter)
    ensures SeriesUrl(f) == SeriesPath + "?" + UrlCodec.QueryText(SeriesUrlParams(f))
  {
    var ps := SeriesParams(f);
    var extra := UrlCodec.QueryText(ps);
    assert extra != "";
    if f.companyId != "" {
      var c := [("companyId", E(f.companyId))];
      UrlCodec.QueryTextAppend(c, ps);
      assert UrlCodec.QueryText(c + ps) == CompanyQuery(f.companyId) + "&" + extra;
    } else {
      assert SeriesUrlParams(f) == ps;
      assert CompanyQuery(f.companyId) == "";
    }
  }

  /** An optional parameter is plain once encoded. */
  lemma OptionalPlain(name: string, value: string)
    requires name != "" && UrlCodec.Plain(name)
    ensures UrlCodec.PlainParams(Optional(name, value))
  {
    UrlCodec.EncodedIsPlain(value);
  }

  /** The parameter names of the series URL, and its fixed lookback, need no escaping. */
  lemma SeriesNamesPlain()
    ensures UrlCodec.Plain("granularity") && UrlCodec.Plain("from") && UrlCodec.Plain("to")
    ensures UrlCodec.Plain("horizon") && UrlCodec.Plain("lookback") && UrlCodec.Plain("60") && UrlCodec.Plain("companyId")
  {
    AlphanumericPlain("granularity");
    AlphanumericPlain("from");
    AlphanumericPlain("to");
    AlphanumericPlain("horizon");
    AlphanumericPlain("lookback");
    AlphanumericPlain("60");
    AlphanumericPlain("companyId");
  }

  /** Letters and digits need no escaping. */
  lemma AlphanumericPlain(s: string)
    requires forall i :: 0 <= i < |s| ==> 'a' <= s[i] <= 'z' || 'A' <= s[i] <= 'Z' || '0' <= s[i] <= '9'
    ensures UrlCodec.Plain(s)
  { }

  /** One pair that needs no escaping. */
  lemma PairPlain(name: string, value: string)
    requires name != "" && UrlCodec.Plain(name) && UrlCodec.Plain(value)
    ensures UrlCodec.PlainParams([(name, value)])
  { }

  lemma HeadPlain(f: SeriesFilter)
    ensures UrlCodec.PlainParams([("granularity", E(f.granularity))] + Optional("from", f.from))
  {
    SeriesNamesPlain();
    PairPlain("granularity", E(f.granularity));
    UrlCodec.EncodedIsPlain(f.granularity);
    OptionalPlain("from", f.from);
    UrlCodec.PlainParamsAppend([("granularity", E(f.granularity))], Optional("from", f.from));
  }

  lemma TailPlain(f: SeriesFilter)
    ensures UrlCodec.PlainParams(Optional("to", f.to) + [("horizon", E(Text.IntToString(f.horizon))), ("lookback", "60")])
  {
    UrlCodec.EncodedIsPlain(Text.IntToString(f.horizon));
    SeriesNamesPlain();
    PairPlain("horizon", E(Text.IntToString(f.horizon)));
    PairPlain("lookback", "60");
    UrlCodec.PlainParamsAppend([("horizon", E(Text.IntToString(f.horizon)))], [("lookback", "60")]);
    assert [("horizon", E(Text.IntToString(f.horizon)))] + [("lookback", "60")] == [("horizon", E(Text.IntToString(f.horizon))), ("lookback", "60")];
    OptionalPlain("to", f.to);
    UrlCodec.PlainParamsAppend(Optional("to", f.to), [("horizon", E(Text.IntToString(f.horizon))), ("lookback", "60")]);
  }

  /** Every name and value of the series URL is free of query separators. */
  lemma SeriesUrlPlain(f: SeriesFilter)
    ensures UrlCodec.PlainParams(SeriesUrlParams(f))
  {
    var head := [("granularity", E(f.granularity))] + Optional("from", f.from);
    var tail := Optional("to", f.to) + [("horizon", E(Text.IntToString(f.horizon))), ("lookback", "60")];
    assert SeriesParams(f) == head + tail;
    HeadPlain(f);
    TailPlain(f);
    UrlCodec.PlainParamsAppend(head, tail);
    SeriesNamesPlain();
    OptionalPlain("companyId", f.companyId);
    UrlCodec.PlainParamsAppend(Optional("companyId", f.companyId), SeriesParams(f));
  }

  /** `URLSearchParams.get` on the series URL finds the first parameter of that name. */
  lemma SeriesUrlGet(f: SeriesFilter, name: string)
    ensures UrlCodec.QueryGet(UrlCodec.SearchOf(SeriesUrl(f)), name) == UrlCodec.FirstOf(SeriesUrlParams(f), name)
  {
    var params := SeriesUrlParams(f);
    var query := UrlCodec.QueryText(params);
    SeriesUrlShape(f);
    SeriesPathHasNoQuery();
    UrlCodec.SearchOfPath(SeriesPath, query);
    assert UrlCodec.SearchOf(SeriesUrl(f)) == "?" + query;
    SeriesUrlPlain(f);
    UrlCodec.QueryGetText(params, name);
  }

  lemma SeriesPathHasNoQuery()
    ensures '?' !in SeriesPath
  {
  }

  lemma HeadFirstOf(f: SeriesFilter, name: string)
    ensures UrlCodec.FirstOf([("granularity", E(f.granularity))] + Optional("from", f.from), name) ==
            if name == "granularity" then Some(E(f.granularity))
            else if name == "from" && f.from != "" then Some(E(f.from)) else None
  {
    UrlCodec.FirstOfAppend([("granularity", E(f.granularity))], Optional("from", f.from), name);
  }

  lemma TailFirstOf(f: SeriesFilter, name: string)
    ensures UrlCodec.FirstOf(Optional("to", f.to) + [("horizon", E(Text.IntToString(f.horizon))), ("lookback", "60")], name) ==
            if name == "to" && f.to != "" then Some(E(f.to))
            else if name == "horizon" then Some(E(Text.IntToString(f.horizon)))
            else if name == "lookback" then Some("60") else None
  {
    UrlCodec.FirstOfAppend(Optional("to", f.to), [("horizon", E(Text.IntToString(f.horizon))), ("lookback", "60")], name);
  }

  /** Reading the series URL's query back gives each filter value, encoded, under its own
    * name; `from` and `to` are absent when empty, and so is `companyId`. */
  lemma SeriesUrlReadsBack(f: SeriesFilter, name: string)
    ensures var got := UrlCodec.QueryGet(UrlCodec.SearchOf(SeriesUrl(f)), name);
            && (name == "companyId" ==> got == if f.companyId != "" then Some(E(f.companyId)) else None)
            && (name == "granularity" ==> got == Some(E(f.granularity)))
            && (name == "from" ==> got == if f.from != "" then Some(E(f.from)) else None)
            && (name == "to" ==> got == if f.to != "" then Some(E(f.to)) else None)
            && (name == "horizon" ==> got == Some(E(Text.IntToString(f.horizon))))
            && (name == "lookback" ==> got == Some("60"))
  {
    SeriesUrlGet(f, name);
    CompanyFirstOf(f, name);
    ParamsFirstOf(f, name);
    HeadFirstOf(f, name);
    TailFirstOf(f, name);
  }

  lemma CompanyFirstOf(f: SeriesFilter, name: string)
    ensures UrlCodec.FirstOf(SeriesUrlParams(f), name) ==
            if name == "companyId" && f.companyId != "" then Some(E(f.companyId)) else UrlCodec.FirstOf(SeriesParams(f), name)
  {
    UrlCodec.FirstOfAppend(Optional("companyId", f.companyId), SeriesParams(f), name);
  }

  lemma ParamsFirstOf(f: SeriesFilter, name: string)
    ensures var head := [("granularity", E(f.granularity))] + Optional("from", f.from);
            var tail := Optional("to", f.to) + [("horizon", E(Text.IntToString(f.horizon))), ("lookback", "60")];
            UrlCodec.FirstOf(SeriesParams(f), name) ==
              if UrlCodec.FirstOf(head, name).Some? then UrlCodec.FirstOf(head, name) else UrlCodec.FirstOf(tail, name)
  {
    var head := [("granularity", E(f.granularity))] + Optional("from", f.from);
    var tail := Optional("to", f.to) + [("horizon", E(Text.IntToString(f.horizon))), ("lookback", "60")];
    assert SeriesParams(f) == head + tail;
    UrlCodec.FirstOfAppend(head, tail, name);
  }

  // ---------------------------------------------------------------------------------------
  // Chart data derived from the reports.

  /** One slice of the response pie: a status and its count. */
  datatype PieSlice = PieSlice(status: string, count: Json)

  /** `Object.entries(v)` on a parsed value: an object's members in order, an array's or a
    * string's elements under their indices, nothing for other values. */
  function Entries(v: Json): (r: seq<(string, Json)>)
    ensures v.JObj? ==> r == v.members
    ensures v.JArr? ==> |r| == |v.items|
    ensures v.JStr? ==> |r| == |v.s|
    ensures !(v.JObj? || v.JArr? || v.JStr?) ==> r == []
  {
    match v
    case JObj(ms) => ms
    case JArr(items) => seq(|items|, i requires 0 <= i < |items| => (Text.NatToString(i), items[i]))
    case JStr(s) => seq(|s|, i requires 0 <= i < |s| => (Text.NatToString(i), JStr([s[i]])))
    case _ => []
  }

  /** `responsePieData`: one slice per entry of `byStatus`, none when it is absent or falsy. */
  function PieData(responses: Option<Json>): (r: seq<PieSlice>)
    ensures !Truthy(Prop(responses, "byStatus")) ==> r == []
    ensures Truthy(Prop(responses, "byStatus")) ==>
              |r| == |Entries(Prop(responses, "byStatus").value)| &&
              forall i :: 0 <= i < |r| ==> r[i] == PieSlice(Entries(Prop(responses, "byStatus").value)[i].0,
                                                           Entries(Prop(responses, "byStatus").value)[i].1)
  {
    var byStatus := Prop(responses, "byStatus");
    if Truthy(byStatus) then
      var es := Entries(byStatus.value);
      seq(|es|, i requires 0 <= i < |es| => PieSlice(es[i].0, es[i].1))
    else []
  }

  /** For a `byStatus` object the pie has exactly one slice per status, carrying that status's
    * count. */
  lemma PieSlicePerStatus(responses: Option<Json>)
    requires Prop(responses, "byStatus").Some? && Prop(responses, "byStatus").value.JObj?
    requires DistinctNames(Prop(responses, "byStatus").value.members)
    ensures var byStatus := Prop(responses, "byStatus").value;
            var r := PieData(responses);
            && (forall i, j :: 0 <= i < j < |r| ==> r[i].status != r[j].status)
            && (forall i :: 0 <= i < |r| ==> Get(byStatus, r[i].status) == Some(r[i].count))
            && (forall k :: Get(byStatus, k).Some? ==> exists i :: 0 <= i < |r| && r[i].status == k)
  {
    var byStatus := Prop(responses, "byStatus").value;
    var r := PieData(responses);
    forall i | 0 <= i < |r| ensures Get(byStatus, r[i].status) == Some(r[i].count) {
      LastValueDistinct(byStatus.members, i);
    }
    forall k | Get(byStatus, k).Some? ensures exists i :: 0 <= i < |r| && r[i].status == k {
      var i :| LastMember(byStatus.members, k, i) && byStatus.members[i].1 == Get(byStatus, k).value;
      assert r[i].status == k;
    }
  }

  function Min(a: int, b: int): int {
    if a < b then a else b
  }

  /** One bar of the category chart. */
  datatype CategoryBar = CategoryBar(category: Option<Json>, employeesCount: Option<Json>, percentOfAll: Option<Json>)

  /** `categoriesBarData`: the first five items, in their order, with their fields renamed;
    * nothing when `items` is not an array. */
  function CategoryBars(categories: Option<Json>): (r: seq<CategoryBar>)
    ensures !(Prop(categories, "items").Some? && Prop(categories, "items").value.JArr?) ==> r == []
    ensures Prop(categories, "items").Some? && Prop(categories, "items").value.JArr? ==>
              var items := Prop(categories, "items").value.items;
              && |r| == Min(5, |items|)
              && forall i :: 0 <= i < |r| ==>
                   r[i] == CategoryBar(Get(items[i], "name"), Get(items[i], "count"), Get(items[i], "percent"))
  {
    match Prop(categories, "items")
    case Some(JArr(items)) =>
      seq(Min(5, |items|), i requires 0 <= i < Min(5, |items|) =>
        CategoryBar(Get(items[i], "name"), Get(items[i], "count"), Get(items[i], "percent")))
    case _ => []
  }

  /** One bar of the chat duration chart. */
  datatype ChatBar = ChatBar(rankLabel: string, chatId: Option<Json>, durationMinutes: Option<Json>,
                             messagesCount: Option<Json>, companyName: Json, employeeName: Json)

  /** `${v || ""}`. */
  function NamePart(v: Option<Json>): (r: string)
    ensures !Truthy(v) ==> r == ""
    ensures Truthy(v) && v.value.JStr? ==> r == v.value.s
  {
    if Truthy(v) then ToJsString(v.value) else ""
  }

  /** The employee shown on a chat bar: the trimmed "first last", else the login, else "—". */
  function EmployeeName(item: Json): Json {
    var full := Text.Trim(NamePart(Get(item, "employeeFirstName")) + " " + NamePart(Get(item, "employeeLastName")));
    if full != "" then JStr(full) else OrText(Get(item, "employeeLogin"), "—")
  }

  /** A string neither starting nor ending with white space. */
  predicate Tidy(s: string) {
    s != "" && !Text.IsSpace(s[0]) && !Text.IsSpace(s[|s| - 1])
  }

  /** Both name parts shown: "first last". */
  lemma EmployeeNameFull(item: Json, first: string, last: string)
    requires Get(item, "employeeFirstName") == Some(JStr(first)) && Get(item, "employeeLastName") == Some(JStr(last))
    requires Tidy(first) && Tidy(last)
    ensures EmployeeName(item) == JStr(first + " " + last)
  {
    var both := first + " " + last;
    assert both[0] == first[0] && both[|both| - 1] == last[|last| - 1];
    assert Text.TrimStart(both) == both;
    assert Text.TrimEnd(both) == both;
  }

  /** Only the first name: the trailing separator is trimmed away. */
  lemma EmployeeNameFirstOnly(item: Json, first: string)
    requires Get(item, "employeeFirstName") == Some(JStr(first)) && !Truthy(Get(item, "employeeLastName"))
    requires Tidy(first)
    ensures EmployeeName(item) == JStr(first)
  {
    var one := first + " " + "";
    assert one[0] == first[0] && one[..|one| - 1] == first;
    assert Text.TrimStart(one) == one;
    assert Text.TrimEnd(first) == first;
    assert Text.TrimEnd(one) == first;
  }

  /** No name at all: the login, else "—". */
  lemma EmployeeNameNoName(item: Json)
    requires !Truthy(Get(item, "employeeFirstName")) && !Truthy(Get(item, "employeeLastName"))
    ensures EmployeeName(item) == OrText(Get(item, "employeeLogin"), "—")
  {
    var blank := "" + " " + "";
    assert Text.AllSpace(blank);
  }

  /** `chatsBarData`: the first five chats, ranked "ТОП 1" to "ТОП 5", with the display
    * fallbacks for company and employee. */
  function ChatBars(chats: Option<Json>): (r: seq<ChatBar>)
    ensures |r| <= 5
    ensures !(Prop(chats, "items").Some? && Prop(chats, "items").value.JArr?) ==> r == []
    ensures Prop(chats, "items").Some? && Prop(chats, "items").value.JArr? ==>
              var items := Prop(chats, "items").value.items;
              && |r| == Min(5, |items|) && |r| <= |items|
              && forall i :: 0 <= i < |r| ==>
                   && r[i].rankLabel == "ТОП " + Text.NatToString(i + 1)
                   && r[i].chatId == Get(items[i], "chatId")
                   && r[i].durationMinutes == Get(items[i], "durationMinutes")
                   && r[i].messagesCount == Get(items[i], "messagesCount")
                   && r[i].companyName == OrText(Get(items[i], "companyName"), "—")
                   && r[i].employeeName == EmployeeName(items[i])
  {
    match Prop(chats, "items")
    case Some(JArr(items)) =>
      seq(Min(5, |items|), i requires 0 <= i < Min(5, |items|) => BarOf(i, items[i]))
    case _ => []
  }

  /** The bar of the chat ranked `i + 1`. */
  function BarOf(i: nat, item: Json): ChatBar {
    ChatBar("ТОП " + Text.NatToString(i + 1), Get(item, "chatId"), Get(item, "durationMinutes"),
            Get(item, "messagesCount"), OrText(Get(item, "companyName"), "—"), EmployeeName(item))
  }

  /** The sort key of a series point: its `period`, compared as text. */
  function Period(p: Json): string {
    Interp(Get(p, "period"))
  }

  predicate SortedByPeriod(s: seq<Json>) {
    forall i, j :: 0 <= i < j < |s| ==> !Text.LexLess(Period(s[j]), Period(s[i]))
  }

  /** Puts `p` before the first point whose period is not earlier than its own. */
  function InsertByPeriod(p: Json, s: seq<Json>): (r: seq<Json>)
    requires SortedByPeriod(s)
    ensures SortedByPeriod(r)
    ensures multiset(r) == multiset(s) + multiset{p}
  {
    if s == [] then [p]
    else if !Text.LexLess(Period(s[0]), Period(p)) then
      forall j | 0 <= j < |s| ensures !Text.LexLess(Period(s[j]), Period(p)) {
        if j > 0 && Text.LexLess(Period(s[j]), Period(p)) {
          Text.LexTotal(Period(s[0]), Period(s[j]));
          if Text.LexLess(Period(s[j]), Period(s[0])) {
          } else if Period(s[0]) == Period(s[j]) {
          } else {
            Text.LexTransitive(Period(s[0]), Period(s[j]), Period(p));
          }
        }
      }
      [p] + s
    else
      var rest := InsertByPeriod(p, s[1..]);
      assert s == [s[0]] + s[1..];
      forall e | e in rest ensures !Text.LexLess(Period(e), Period(s[0])) {
        assert e in multiset(rest);
        if e == p {
          Text.LexAsymmetric(Period(s[0]), Period(p));
        } else {
          assert e in s[1..];
        }
      }
      [s[0]] + rest
  }

  /** `[...points].sort((a, b) => a.period > b.period ? 1 : -1)`: the points in order of period. */
  function SortByPeriod(s: seq<Json>): (r: seq<Json>)
    ensures SortedByPeriod(r)
    ensures multiset(r) == multiset(s)
  {
    if s == [] then []
    else
      assert s == [s[0]] + s[1..];
      InsertByPeriod(s[0], SortByPeriod(s[1..]))
  }

  /** One row of the series chart: the value as `actual` or as `forecast`, the other `null`. */
  datatype SeriesRow = SeriesRow(period: Option<Json>, actual: Option<Json>, forecast: Option<Json>)

  function RowOf(p: Json): (r: SeriesRow)
    ensures r.period == Get(p, "period")
    ensures Truthy(Get(p, "forecast")) ==> r.forecast == Get(p, "value") && r.actual == Some(JNull)
    ensures !Truthy(Get(p, "forecast")) ==> r.actual == Get(p, "value") && r.forecast == Some(JNull)
  {
    var forecast := Truthy(Get(p, "forecast"));
    SeriesRow(Get(p, "period"), if forecast then Some(JNull) else Get(p, "value"),
              if forecast then Get(p, "value") else Some(JNull))
  }

  /** `seriesData`: the points sorted by period, one row each; nothing without points. */
  function SeriesData(series: Option<Json>): (r: seq<SeriesRow>)
    ensures !(Prop(series, "points").Some? && Prop(series, "points").value.JArr?) ==> r == []
    ensures Prop(series, "points").Some? && Prop(series, "points").value.JArr? ==>
              var points := Prop(series, "points").value.items;
              exists s :: && multiset(s) == multiset(points) && SortedByPeriod(s) && |r| == |s|
                          && forall i :: 0 <= i < |r| ==> r[i] == RowOf(s[i])
  {
    match Prop(series, "points")
    case Some(JArr(points)) =>
      if points == [] then []
      else
        var s := SortByPeriod(points);
        var r := seq(|s|, i requires 0 <= i < |s| => RowOf(s[i]));
        assert multiset(s) == multiset(points) && SortedByPeriod(s) && |r| == |s|;
        r
    case _ => []
  }

  // ---------------------------------------------------------------------------------------
  // The loaders.

  /** The series panel: the last report, its loading flag and the page's error text. */
  datatype SeriesView = SeriesView(series: Option<Json>, loading: bool, error: string)

  /** `loadSeries()`: request the series for the filter; a failure of any kind keeps the last
    * report and shows the series error. */
  method LoadSeries(f: SeriesFilter, view: SeriesView, answer: Answer) returns (next: SeriesView, call: Call)
    ensures call == Call(SeriesUrl(f), NoOptions)
    ensures OkJson(answer).Some? ==> next == SeriesView(OkJson(answer), false, "")
    ensures OkJson(answer).None? ==> next == SeriesView(view.series, false, SeriesFailed)
  {
    next := view.(loading := true, error := "");
    var extra := UrlCodec.QueryText(SeriesParams(f));
    call := Call(WithParams(SeriesPath, CompanyQuery(f.companyId), extra), NoOptions);
    if answer.Failure? || !answer.value.Ok() || answer.value.json.None? {
      next := next.(error := SeriesFailed);
    } else {
      next := next.(series := answer.value.json);
    }
    next := next.(loading := false);
  }

  /** The company choices: ok JSON arrays replace them, other ok JSON empties them, and a
    * failed request or a non-ok reply leaves them as they were. */
  method LoadCompanies(companies: seq<Json>, answer: Answer) returns (next: seq<Json>, call: Call)
    ensures call == Call(CompaniesPath, NoOptions)
    ensures OkJson(answer).Some? && OkJson(answer).value.JArr? ==> next == OkJson(answer).value.items
    ensures OkJson(answer).Some? && !OkJson(answer).value.JArr? ==> next == []
    ensures OkJson(answer).None? ==> next == companies
  {
    call := Call(CompaniesPath, NoOptions);
    next := companies;
    if answer.Success? && answer.value.Ok() && answer.value.json.Some? {
      var json := answer.value.json.value;
      next := if json.JArr? then json.items else [];
    }
  }
}
