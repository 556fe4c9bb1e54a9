/** URL text: `encodeURIComponent`, the `application/x-www-form-urlencoded` serializer behind
  * `URLSearchParams.toString()`, and the `URLSearchParams.get` reading of a query string. */
module UrlCodec {
  import opened Wrappers
  import Text

  /** The UTF-8 encoding of one Unicode scalar value. */
  function Utf8(c: char): (r: seq<int>)
    ensures 1 <= |r| <= 4
    ensures forall i :: 0 <= i < |r| ==> 0 <= r[i] < 256
    ensures c as int < 0x80 <==> |r| == 1
    ensures c as int < 0x80 ==> r == [c as int]
  {
    var cp := c as int;
    if cp < 0x80 then [cp]
    else if cp < 0x800 then [0xC0 + cp / 64, 0x80 + cp % 64]
    else if cp < 0x1_0000 then [0xE0 + cp / 4096, 0x80 + (cp / 64) % 64, 0x80 + cp % 64]
    else [0xF0 + cp / 262144, 0x80 + (cp / 4096) % 64, 0x80 + (cp / 64) % 64, 0x80 + cp % 64]
  }

  function HexDigit(d: int): (c: char)
    requires 0 <= d < 16
    ensures IsAlphaNum(c)
  {
    if d < 10 then ('0' as int + d) as char else ('A' as int + d - 10) as char
  }

  predicate IsAlphaNum(c: char) {
    ('A' <= c <= 'Z') || ('a' <= c <= 'z') || ('0' <= c <= '9')
  }

  /** `%XX` for each byte, upper-case hexadecimal. */
  function PercentBytes(bytes: seq<int>): (r: string)
    requires forall i :: 0 <= i < |bytes| ==> 0 <= bytes[i] < 256
    ensures |r| == 3 * |bytes|
    ensures forall i :: 0 <= i < |r| ==> r[i] == '%' || IsAlphaNum(r[i])
  {
    if bytes == [] then ""
    else ['%', HexDigit(bytes[0] / 16), HexDigit(bytes[0] % 16)] + PercentBytes(bytes[1..])
  }

  /** The characters `encodeURIComponent` leaves as they are. */
  predicate UriUnreserved(c: char) {
    IsAlphaNum(c) || c in "-_.!~*'()"
  }

  /** `encodeURIComponent(s)`. */
  function EncodeUriComponent(s: string): (r: string)
    ensures forall i :: 0 <= i < |r| ==> UriUnreserved(r[i]) || r[i] == '%'
    ensures (forall i :: 0 <= i < |s| ==> UriUnreserved(s[i])) ==> r == s
    ensures s == "" <==> r == ""
  {
    if s == [] then ""
    else
      var head := if UriUnreserved(s[0]) then [s[0]] else PercentBytes(Utf8(s[0]));
      head + EncodeUriComponent(s[1..])
  }

  /** The characters the form serializer leaves as they are. */
  predicate FormUnreserved(c: char) {
    IsAlphaNum(c) || c == '*' || c == '-' || c == '.' || c == '_'
  }

  /** The form serializer on one name or value: a space becomes `+`. */
  function FormEncode(s: string): (r: string)
    ensures forall i :: 0 <= i < |r| ==> FormUnreserved(r[i]) || r[i] == '%' || r[i] == '+'
    ensures '&' !in r && '=' !in r && ' ' !in r
    ensures (forall i :: 0 <= i < |s| ==> FormUnreserved(s[i])) ==> r == s
    ensures s == "" <==> r == ""
  {
    if s == [] then ""
    else
      var head :=
        if FormUnreserved(s[0]) then [s[0]]
        else if s[0] == ' ' then "+"
        else PercentBytes(Utf8(s[0]));
      head + FormEncode(s[1..])
  }

  /** `URLSearchParams.toString()` over the parameters in the order they were appended. */
  function Serialize(params: seq<(string, string)>): (r: string)
    ensures r == "" <==> params == []
  {
    if params == [] then ""
    else
      var first := FormEncode(params[0].0) + "=" + FormEncode(params[0].1);
      if |params| == 1 then first else first + "&" + Serialize(params[1..])
  }

  /** The part of a path from its `?` on: the `location.search` it will have. */
  function SearchOf(target: string): (r: string)
    ensures '?' in target ==> r != [] && r[0] == '?'
    ensures '?' !in target ==> r == ""
  {
    if target == [] then ""
    else if target[0] == '?' then target
    else SearchOf(target[1..])
  }

  /** `s.split(sep)`: the pieces between separators. */
  function Split(s: string, sep: char): (r: seq<string>)
    ensures |r| >= 1
    ensures forall i :: 0 <= i < |r| ==> sep !in r[i]
    ensures sep !in s ==> r == [s]
  {
    if s == [] then [""]
    else
      var rest := Split(s[1..], sep);
      assert sep !in s ==> sep !in s[1..] && s == [s[0]] + s[1..];
      if s[0] == sep then [""] + rest else [[s[0]] + rest[0]] + rest[1..]
  }

  /** The one name/value pair of a query piece: split at the first `=`, `+` read as a space. */
  function ParsePair(piece: string): (r: (string, string))
  {
    var parts := SplitFirst(piece, '=');
    (PlusToSpace(parts.0), PlusToSpace(parts.1))
  }

  function SplitFirst(s: string, sep: char): (r: (string, string))
    ensures sep !in r.0
    ensures sep !in s ==> r == (s, "")
    ensures sep in s ==> s == r.0 + [sep] + r.1
  {
    if s == [] then ("", "")
    else if s[0] == sep then ("", s[1..])
    else
      var rest := SplitFirst(s[1..], sep);
      assert s == [s[0]] + s[1..];
      ([s[0]] + rest.0, rest.1)
  }

  /** Splitting at the first separator finds the one after a separator-free prefix. */
  lemma {:induction false} SplitFirstAt(a: string, sep: char, b: string)
    requires sep !in a
    ensures SplitFirst(a + [sep] + b, sep) == (a, b)
  {
    if a != [] {
      var s := a + [sep] + b;
      assert s[0] == a[0] != sep;
      assert s[1..] == a[1..] + [sep] + b;
      SplitFirstAt(a[1..], sep, b);
      assert [a[0]] + a[1..] == a;
    }
  }

  function PlusToSpace(s: string): (r: string)
    ensures |r| == |s|
    ensures forall i :: 0 <= i < |s| ==> r[i] == if s[i] == '+' then ' ' else s[i]
  {
    if s == [] then "" else [if s[0] == '+' then ' ' else s[0]] + PlusToSpace(s[1..])
  }

  /** `new URLSearchParams(search).get(name)`: the value of the first pair with that name. */
  function QueryGet(search: string, name: string): (r: Option<string>)
    ensures r.Some? ==> exists i :: FirstAt(Pieces(search), name, i) && ParsePair(Pieces(search)[i]).1 == r.value
    ensures r.None? ==> forall i :: 0 <= i < |Pieces(search)| && Pieces(search)[i] != "" ==> ParsePair(Pieces(search)[i]).0 != name
  {
    FirstValue(Pieces(search), name)
  }

  /** The `&`-separated pieces of a query string, after its leading `?`. */
  function Pieces(search: string): (r: seq<string>)
    ensures |r| >= 1 && forall i :: 0 <= i < |r| ==> '&' !in r[i]
  {
    Split(if search != [] && search[0] == '?' then search[1..] else search, '&')
  }

  /** Piece `i` is the first non-empty one whose name is `name`. */
  predicate FirstAt(pieces: seq<string>, name: string, i: int) {
    && 0 <= i < |pieces| && pieces[i] != "" && ParsePair(pieces[i]).0 == name
    && forall j :: 0 <= j < i && pieces[j] != "" ==> ParsePair(pieces[j]).0 != name
  }

  function FirstValue(pieces: seq<string>, name: string): (r: Option<string>)
    ensures r.Some? ==> exists i :: FirstAt(pieces, name, i) && ParsePair(pieces[i]).1 == r.value
    ensures r.None? ==> forall i :: 0 <= i < |pieces| && pieces[i] != "" ==> ParsePair(pieces[i]).0 != name
  {
    if pieces == [] then None
    else if pieces[0] != "" && ParsePair(pieces[0]).0 == name then
      assert FirstAt(pieces, name, 0);
      Some(ParsePair(pieces[0]).1)
    else
      var r := FirstValue(pieces[1..], name);
      if r.Some? then
        var i :| FirstAt(pieces[1..], name, i) && ParsePair(pieces[1..][i]).1 == r.value;
        FirstAtShift(pieces, name, i);
        r
      else
        r
  }

  lemma FirstAtShift(pieces: seq<string>, name: string, i: int)
    requires pieces != [] && (pieces[0] == "" || ParsePair(pieces[0]).0 != name)
    requires FirstAt(pieces[1..], name, i)
    ensures FirstAt(pieces, name, i + 1)
  {
    forall j | 0 <= j < i + 1 && pieces[j] != "" ensures ParsePair(pieces[j]).0 != name {
      if j > 0 { assert pieces[j] == pieces[1..][j - 1]; }
    }
  }

  /** A query string of one pair gives back that pair's value. */
  lemma QueryGetSingle(name: string, value: string)
    requires name != "" && '&' !in name + value && '=' !in name && '+' !in name + value
    ensures QueryGet("?" + name + "=" + value, name) == Some(value)
  {
    var q := "?" + name + "=" + value;
    var body := name + "=" + value;
    assert q[1..] == body;
    assert '&' !in body;
    assert Split(body, '&') == [body];
    SplitFirstAt(name, '=', value);
    assert PlusToSpace(name) == name;
    assert PlusToSpace(value) == value;
  }

  /** A query string with no pairs has no values. */
  lemma QueryGetEmpty(name: string)
    ensures QueryGet("", name) == None
  {
    assert Split("", '&') == [""];
  }

  // ---------------------------------------------------------------------------------------
  // Query strings built from name/value pairs, and what `URLSearchParams.get` reads from them.

  /** A query text assembled by hand: `name=value` pieces joined with `&`. */
  function QueryText(params: seq<(string, string)>): (r: string)
    ensures params == [] <==> r == ""
    ensures |params| == 1 ==> r == params[0].0 + "=" + params[0].1
  {
    if params == [] then ""
    else if |params| == 1 then params[0].0 + "=" + params[0].1
    else params[0].0 + "=" + params[0].1 + "&" + QueryText(params[1..])
  }

  /** The pairs `if (value) params.append(name, value)` appends, one candidate after another. */
  function NonEmptyPairs(candidates: seq<(string, string)>): seq<(string, string)> {
    if candidates == [] then []
    else
      var last := candidates[|candidates| - 1];
      var init := NonEmptyPairs(candidates[..|candidates| - 1]);
      if last.1 != "" then init + [last] else init
  }

  /** The pairs appended are the candidates with a non-empty value, and all of them when every
    * value is non-empty. */
  lemma {:induction false} NonEmptyPairsMembers(candidates: seq<(string, string)>)
    ensures |NonEmptyPairs(candidates)| <= |candidates|
    ensures forall p :: p in NonEmptyPairs(candidates) <==> p in candidates && p.1 != ""
    ensures (forall p :: p in candidates ==> p.1 != "") ==> NonEmptyPairs(candidates) == candidates
    ensures NonEmptyPairs(candidates) == [] <==> forall p :: p in candidates ==> p.1 == ""
  {
    if candidates != [] {
      var init := candidates[..|candidates| - 1];
      NonEmptyPairsMembers(init);
      assert candidates == init + [candidates[|candidates| - 1]];
    }
  }

  /** One more candidate is appended after the others exactly when its value is non-empty. */
  lemma NonEmptyPairsSnoc(candidates: seq<(string, string)>, c: (string, string))
    ensures NonEmptyPairs(candidates + [c]) == NonEmptyPairs(candidates) + (if c.1 != "" then [c] else [])
  {
    assert (candidates + [c])[..|candidates|] == candidates;
  }

  /** Filtering keeps the order: the candidates of two lists are filtered list by list. */
  lemma {:induction false} NonEmptyPairsAppend(a: seq<(string, string)>, b: seq<(string, string)>)
    ensures NonEmptyPairs(a + b) == NonEmptyPairs(a) + NonEmptyPairs(b)
  {
    if b == [] {
      assert a + b == a;
    } else {
      var n := |b| - 1;
      assert (a + b)[..|a + b| - 1] == a + b[..n];
      NonEmptyPairsAppend(a, b[..n]);
    }
  }

  /** A name or value that needs no escaping to sit in a query piece. */
  predicate Plain(s: string) {
    '&' !in s && '=' !in s && '+' !in s
  }

  /** Named pairs whose names and values need no escaping. */
  predicate PlainParams(params: seq<(string, string)>) {
    forall p :: p in params ==> p.0 != "" && Plain(p.0) && Plain(p.1)
  }

  lemma PlainParamsAppend(a: seq<(string, string)>, b: seq<(string, string)>)
    requires PlainParams(a) && PlainParams(b)
    ensures PlainParams(a + b)
  {
  }

  /** The value of the first pair with this name. */
  function FirstOf(params: seq<(string, string)>, name: string): (r: Option<string>)
    ensures r.Some? ==> (name, r.value) in params
    ensures r.None? ==> forall p :: p in params ==> p.0 != name
  {
    if params == [] then None
    else if params[0].0 == name then Some(params[0].1)
    else FirstOf(params[1..], name)
  }

  /** An encoded component never holds a separator of the query syntax. */
  lemma EncodedIsPlain(s: string)
    ensures Plain(EncodeUriComponent(s))
  {
    var r := EncodeUriComponent(s);
    forall i | 0 <= i < |r| ensures r[i] != '&' && r[i] != '=' && r[i] != '+' {
      assert UriUnreserved(r[i]) || r[i] == '%';
    }
  }

  /** Splitting after a separator-free first piece. */
  lemma {:induction false} SplitAfter(a: string, sep: char, b: string)
    requires sep !in a
    ensures Split(a + [sep] + b, sep) == [a] + Split(b, sep)
  {
    if a == [] {
      assert ([sep] + b)[1..] == b;
    } else {
      var s := a + [sep] + b;
      assert s[0] == a[0] && s[1..] == a[1..] + [sep] + b;
      SplitAfter(a[1..], sep, b);
      assert [a[0]] + a[1..] == a;
    }
  }

  /** Every piece of a query text, and nothing else, comes back from splitting it at `&`. */
  lemma {:induction false} QueryTextPieces(params: seq<(string, string)>)
    requires params != []
    requires forall p :: p in params ==> Plain(p.0) && Plain(p.1)
    ensures Split(QueryText(params), '&') == seq(|params|, i requires 0 <= i < |params| => params[i].0 + "=" + params[i].1)
  {
    var piece := params[0].0 + "=" + params[0].1;
    assert '&' !in piece;
    if |params| > 1 {
      assert forall p :: p in params[1..] ==> p in params;
      QueryTextPieces(params[1..]);
      SplitAfter(piece, '&', QueryText(params[1..]));
    } else {
      assert Split(piece, '&') == [piece];
    }
  }

  /** `URLSearchParams.get` on a query text gives the first value of that name, or nothing. */
  lemma QueryGetText(params: seq<(string, string)>, name: string)
    requires PlainParams(params)
    ensures QueryGet("?" + QueryText(params), name) == FirstOf(params, name)
  {
    var q := "?" + QueryText(params);
    assert q[1..] == QueryText(params);
    if params == [] {
      assert Split("", '&') == [""];
    } else {
      QueryTextPieces(params);
      FirstValueOfPieces(params, name);
    }
  }

  lemma {:induction false} FirstValueOfPieces(params: seq<(string, string)>, name: string)
    requires forall p :: p in params ==> p.0 != "" && Plain(p.0) && Plain(p.1)
    ensures FirstValue(seq(|params|, i requires 0 <= i < |params| => params[i].0 + "=" + params[i].1), name) == FirstOf(params, name)
  {
    var pieces := seq(|params|, i requires 0 <= i < |params| => params[i].0 + "=" + params[i].1);
    if params != [] {
      var (k, v) := params[0];
      SplitFirstAt(k, '=', v);
      assert PlusToSpace(k) == k && PlusToSpace(v) == v;
      assert ParsePair(pieces[0]) == (k, v);
      assert forall p :: p in params[1..] ==> p in params;
      FirstValueOfPieces(params[1..], name);
      assert pieces[1..] == seq(|params[1..]|, i requires 0 <= i < |params[1..]| => params[1..][i].0 + "=" + params[1..][i].1);
    }
  }

  /** Query texts put side by side with `&` are the query text of both lists. */
  lemma {:induction false} QueryTextAppend(a: seq<(string, string)>, b: seq<(string, string)>)
    requires a != [] && b != []
    ensures QueryText(a + b) == QueryText(a) + "&" + QueryText(b)
  {
    if |a| > 1 {
      assert (a + b)[1..] == a[1..] + b;
      QueryTextAppend(a[1..], b);
    } else {
      assert (a + b)[1..] == b;
    }
  }

  /** The `location.search` of `base?query` is `?query` when `base` has no `?`. */
  lemma {:induction false} SearchOfPath(base: string, query: string)
    requires '?' !in base
    ensures SearchOf(base + "?" + query) == "?" + query
  {
    if base != [] {
      assert (base + "?" + query)[1..] == base[1..] + "?" + query;
      SearchOfPath(base[1..], query);
    } else {
      assert base + "?" + query == "?" + query;
    }
  }

  /** The first value of a name in two lists put end to end: from the first list if it has one. */
  lemma {:induction false} FirstOfAppend(a: seq<(string, string)>, b: seq<(string, string)>, name: string)
    ensures FirstOf(a + b, name) == if FirstOf(a, name).Some? then FirstOf(a, name) else FirstOf(b, name)
  {
    if a != [] {
      assert (a + b)[0] == a[0] && (a + b)[1..] == a[1..] + b;
      FirstOfAppend(a[1..], b, name);
    } else {
      assert a + b == b;
    }
  }
}
