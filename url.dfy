/**
 * The parts of Go's `net/url` the client relies on: `url.Values` (a
 * multimap from keys to the values added under them, in order), its
 * `Add` and `Encode`, and the reading of a URL's raw query.
 *
 * `Values` is kept as the sequence of (key, value) pairs in the order they
 * were added; `ValuesOf` recovers the per-key lists that the Go map holds
 * (Go's `v[key]`, not `Values.Get`, which gives only the first).
 */
module Url {
  import Strconv

  datatype Param = Param(key: string, value: string)

  type Values = seq<Param>

  /** `url.Values.Add`: appends `value` under `key`, keeping what is there. */
  function Add(q: Values, key: string, value: string): Values
  {
    q + [Param(key, value)]
  }

  /** The values stored under `key`, in the order they were added. */
  function ValuesOf(q: Values, key: string): (vs: seq<string>)
  {
    if q == [] then []
    else ValuesOf(q[..|q| - 1], key) + (if q[|q| - 1].key == key then [q[|q| - 1].value] else [])
  }

  /** A value is listed under a key exactly when that pair was added. */
  lemma {:induction false} ValuesOfMembership(q: Values, key: string, v: string)
    ensures v in ValuesOf(q, key) <==> Param(key, v) in q
  {
    if q != [] {
      var init := q[..|q| - 1];
      ValuesOfMembership(init, key, v);
      assert q == init + [q[|q| - 1]];
    }
  }

  /** Add extends the list under its own key by one value and leaves every other key alone. */
  lemma ValuesOfAdd(q: Values, key: string, value: string, k: string)
    ensures ValuesOf(Add(q, key, value), k) == ValuesOf(q, k) + (if k == key then [value] else [])
  {
    assert Add(q, key, value)[..|q|] == q;
  }

  /** Adds the pair only when `present` holds, as the option-to-query code does for each field. */
  function AddIf(q: Values, present: bool, key: string, value: string): (r: Values)
    ensures |r| == |q| + (if present then 1 else 0)
    ensures forall p :: p in r <==> p in q || (present && p == Param(key, value))
    ensures forall k :: ValuesOf(r, k) == ValuesOf(q, k) + (if present && k == key then [value] else [])
  {
    if present then
      assert forall k :: ValuesOf(Add(q, key, value), k) == ValuesOf(q, k) + (if k == key then [value] else []) by {
        forall k { ValuesOfAdd(q, key, value, k); }
      }
      Add(q, key, value)
    else q
  }

  /** The first index of `c` in `s`, or `|s|` when `c` does not occur. */
  function IndexOf(s: string, c: char): (i: nat)
    ensures i <= |s|
    ensures i < |s| ==> s[i] == c
    ensures forall k :: 0 <= k < i ==> s[k] != c
  {
    if s == [] then 0 else if s[0] == c then 0 else 1 + IndexOf(s[1..], c)
  }

  lemma IndexOfJoin(a: string, c: char, b: string)
    requires c !in a
    ensures IndexOf(a + [c] + b, c) == |a|
  {
    var s := a + [c] + b;
    assert s[|a|] == c;
    assert forall k :: 0 <= k < |a| ==> s[k] == a[k];
  }

  lemma IndexOfAbsent(s: string, c: char)
    requires c !in s
    ensures IndexOf(s, c) == |s|
  {
  }

  function EncodeParam(p: Param): string
  {
    p.key + "=" + p.value
  }

  /**
   * `url.Values.Encode` without its escaping and key sorting: every pair
   * rendered as key=value, joined by '&' in the order they were added.
   */
  function Encode(q: Values): (s: string)
    ensures s == [] <==> q == []
  {
    if q == [] then ""
    else if |q| == 1 then EncodeParam(q[0])
    else EncodeParam(q[0]) + "&" + Encode(q[1..])
  }

  /** Reads one key=value segment; a segment without '=' is a key with an empty value. */
  function ParseParam(segment: string): Param
  {
    var i := IndexOf(segment, '=');
    if i == |segment| then Param(segment, "") else Param(segment[..i], segment[i + 1..])
  }

  /** Reads a raw query back into pairs, skipping empty segments. */
  function ParseQuery(s: string): Values
    decreases |s|
  {
    if s == [] then []
    else
      var i := IndexOf(s, '&');
      var head := if i == 0 then [] else [ParseParam(s[..i])];
      if i == |s| then head else head + ParseQuery(s[i + 1..])
  }

  /** A rendered integer under a plain key needs no escaping. */
  lemma ItoaPlain(key: string, i: int)
    requires '&' !in key && '=' !in key
    ensures Plain(Param(key, Strconv.Itoa(i)))
  {
    var s := Strconv.Itoa(i);
    assert forall k :: 0 <= k < |s| ==> s[k] != '&';
  }

  /** A pair whose rendering needs no escaping to be read back unambiguously. */
  predicate Plain(p: Param)
  {
    '&' !in p.key && '=' !in p.key && '&' !in p.value
  }

  predicate AllPlain(q: Values)
  {
    forall p :: p in q ==> Plain(p)
  }

  lemma AddIfPlain(q: Values, present: bool, key: string, value: string)
    requires AllPlain(q) && (present ==> Plain(Param(key, value)))
    ensures AllPlain(AddIf(q, present, key, value))
  {
  }

  lemma ParseEncodeParam(p: Param)
    requires Plain(p)
    ensures '&' !in EncodeParam(p) && |EncodeParam(p)| > 0
    ensures ParseParam(EncodeParam(p)) == p
  {
    var e := EncodeParam(p);
    IndexOfJoin(p.key, '=', p.value);
    assert e == p.key + ['='] + p.value;
    assert e[..|p.key|] == p.key;
    assert e[|p.key| + 1..] == p.value;
  }

  /** Decoding an encoded parameter list gives back the same list, order and repeats included. */
  lemma {:induction false} ParseEncode(q: Values)
    requires AllPlain(q)
    ensures ParseQuery(Encode(q)) == q
  {
    if q != [] {
      var e := EncodeParam(q[0]);
      ParseEncodeParam(q[0]);
      if |q| == 1 {
        IndexOfAbsent(e, '&');
        assert e[..|e|] == e;
      } else {
        var rest := Encode(q[1..]);
        var s := e + "&" + rest;
        assert s == e + ['&'] + rest;
        IndexOfJoin(e, '&', rest);
        assert s[..|e|] == e;
        assert s[|e| + 1..] == rest;
        assert forall p :: p in q[1..] ==> p in q;
        ParseEncode(q[1..]);
      }
    }
  }

  /** Splits a URL at its first '?' into the resource and the raw query. */
  function SplitQuery(u: string): (parts: (string, string))
  {
    var i := IndexOf(u, '?');
    if i == |u| then (u, "") else (u[..i], u[i + 1..])
  }

  /** A URL built as resource + "?" + query splits back into exactly those two parts. */
  lemma SplitQueryJoin(resource: string, query: string)
    requires '?' !in resource
    ensures SplitQuery(resource + "?" + query) == (resource, query)
  {
    var u := resource + "?" + query;
    assert u == resource + ['?'] + query;
    IndexOfJoin(resource, '?', query);
    assert u[..|resource|] == resource;
    assert u[|resource| + 1..] == query;
  }

  /** A URL without '?' carries no query at all. */
  lemma SplitQueryNone(u: string)
    requires '?' !in u
    ensures SplitQuery(u) == (u, "")
  {
    IndexOfAbsent(u, '?');
  }
}
