/** The parts of Go's net/http and net/url that the core uses to build
    requests: `url.Values` for query parameters, `http.Header` for headers
    (both a map from a key to the list of its values) and a request record. */
module Http {

  /** url.Values and http.Header: each key maps to its values in the order
      they were added. */
  type Values = map<string, seq<string>>

  /** The values already recorded under `key`, none if the key is absent. */
  function ValuesOf(v: Values, key: string): seq<string>
  {
    if key in v then v[key] else []
  }

  /** `v.Add(key, value)`: append `value` to the list under `key`. */
  function Add(v: Values, key: string, value: string): (r: Values)
    ensures r.Keys == v.Keys + {key}
    ensures r[key] == ValuesOf(v, key) + [value]
    ensures forall k :: k in v && k != key ==> r[k] == v[k]
  {
    v[key := ValuesOf(v, key) + [value]]
  }

  /** `v.Get(key)`: the first value under `key`, or "" when there is none. */
  function Get(v: Values, key: string): (r: string)
    ensures ValuesOf(v, key) == [] ==> r == ""
    ensures ValuesOf(v, key) != [] ==> r == ValuesOf(v, key)[0]
  {
    if key in v && v[key] != [] then v[key][0] else ""
  }

  /** Get after Add: the added value is found under its key exactly when
      nothing was there before; every other key is unaffected. */
  lemma GetAdd(v: Values, key: string, value: string, other: string)
    ensures Get(Add(v, key, value), key) == if ValuesOf(v, key) == [] then value else Get(v, key)
    ensures other != key ==> Get(Add(v, key, value), other) == Get(v, other)
  {
  }

  /** A byte that may appear in a header field name (a token character of
      section 3.2.6 of RFC 7230). */
  predicate IsTokenChar(c: char)
  {
    ('a' <= c <= 'z') || ('A' <= c <= 'Z') || ('0' <= c <= '9') ||
    c == '!' || c == '#' || c == '$' || c == '%' || c == '&' || c == '\'' || c == '*' ||
    c == '+' || c == '-' || c == '.' || c == '^' || c == '_' || c == '`' || c == '|' || c == '~'
  }

  function ToUpper(c: char): char
  {
    if 'a' <= c <= 'z' then (c as int - 32) as char else c
  }

  function ToLower(c: char): char
  {
    if 'A' <= c <= 'Z' then (c as int + 32) as char else c
  }

  /** textproto.CanonicalMIMEHeaderKey, which `http.Header.Add` applies to
      every key: a key made only of token characters has its first letter and
      every letter after a '-' upper-cased and all other letters lower-cased;
      any other key is kept as it is. */
  function CanonicalHeaderKey(s: string): (r: string)
    ensures |r| == |s|
    ensures (forall i :: 0 <= i < |s| ==> IsTokenChar(s[i])) ==>
      forall i :: 0 <= i < |s| ==>
        r[i] == if i == 0 || s[i - 1] == '-' then ToUpper(s[i]) else ToLower(s[i])
    ensures (exists i :: 0 <= i < |s| && !IsTokenChar(s[i])) ==> r == s
  {
    if forall i :: 0 <= i < |s| ==> IsTokenChar(s[i]) then
      seq(|s|, i requires 0 <= i < |s| =>
        if i == 0 || s[i - 1] == '-' then ToUpper(s[i]) else ToLower(s[i]))
    else
      s
  }

  /** `req.Header.Add(key, value)`. */
  function AddHeader(h: Values, key: string, value: string): Values
  {
    Add(h, CanonicalHeaderKey(key), value)
  }

  /** An HTTP request as the core builds it: method (verb), URL, headers and the
      query parameters it encodes into the URL. */
  datatype Request = Request(verb: string, url: string, header: Values, query: Values)

  /** Adding three values under three different keys to empty Values gives
      exactly those three one-element lists. */
  lemma AddThree(a: string, va: string, b: string, vb: string, c: string, vc: string)
    requires a != b && b != c && a != c
    ensures Add(Add(Add(map[], a, va), b, vb), c, vc) == map[a := [va], b := [vb], c := [vc]]
  {
    var r := Add(Add(Add(map[], a, va), b, vb), c, vc);
    var m := map[a := [va], b := [vb], c := [vc]];
    assert r.Keys == m.Keys;
    assert forall key :: key in r ==> r[key] == m[key];
  }

  /** Adding one value to empty Values gives a one-element list. */
  lemma AddOne(k: string, v: string)
    ensures Add(map[], k, v) == map[k := [v]]
  {
    var r := Add(map[], k, v);
    assert r.Keys == {k};
    assert r[k] == [v];
  }

  /** A key of token characters that already follows the canonical pattern
      letter by letter comes out as `r`. */
  lemma CanonicalKeyIs(s: string, r: string)
    requires forall i :: 0 <= i < |s| ==> IsTokenChar(s[i])
    requires |r| == |s|
    requires forall i :: 0 <= i < |s| ==>
      r[i] == if i == 0 || s[i - 1] == '-' then ToUpper(s[i]) else ToLower(s[i])
    ensures CanonicalHeaderKey(s) == r
  {
  }

  lemma CanonicalAuthorization()
    ensures CanonicalHeaderKey("Authorization") == "Authorization"
  {
    var s := "Authorization";
    assert s[0] == 'A' && s[1] == 'u' && s[2] == 't' && s[3] == 'h' && s[4] == 'o' && s[5] == 'r' && s[6] == 'i';
    assert s[7] == 'z' && s[8] == 'a' && s[9] == 't' && s[10] == 'i' && s[11] == 'o' && s[12] == 'n';
    assert ToUpper('A') == 'A';
    assert forall i :: 0 < i < |s| ==> ToLower(s[i]) == s[i];
    CanonicalKeyIs(s, s);
  }

  lemma CanonicalContentType()
    ensures CanonicalHeaderKey("Content-Type") == "Content-Type"
  {
    var s := "Content-Type";
    assert s[0] == 'C' && s[1] == 'o' && s[2] == 'n' && s[3] == 't' && s[4] == 'e' && s[5] == 'n';
    assert s[6] == 't' && s[7] == '-' && s[8] == 'T' && s[9] == 'y' && s[10] == 'p' && s[11] == 'e';
    assert ToUpper('C') == 'C' && ToUpper('T') == 'T';
    assert forall i :: 0 < i < |s| && i != 8 ==> ToLower(s[i]) == s[i];
    CanonicalKeyIs(s, s);
  }

  /** The header the telemetry request adds as "cache-control" is sent as
      "Cache-Control". */
  lemma CanonicalCacheControl()
    ensures CanonicalHeaderKey("cache-control") == "Cache-Control"
  {
    var s := "cache-control";
    var r := "Cache-Control";
    assert s[0] == 'c' && s[1] == 'a' && s[2] == 'c' && s[3] == 'h' && s[4] == 'e' && s[5] == '-' && s[6] == 'c';
    assert s[7] == 'o' && s[8] == 'n' && s[9] == 't' && s[10] == 'r' && s[11] == 'o' && s[12] == 'l';
    assert r[0] == 'C' && r[1] == 'a' && r[2] == 'c' && r[3] == 'h' && r[4] == 'e' && r[5] == '-' && r[6] == 'C';
    assert r[7] == 'o' && r[8] == 'n' && r[9] == 't' && r[10] == 'r' && r[11] == 'o' && r[12] == 'l';
    CanonicalKeyIs(s, r);
  }
}
