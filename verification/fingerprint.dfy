/**
 The request fingerprint that is hashed into the cache key: the request URI
 followed, for each configured header name in configured order that the
 request carries, by the name and the concatenation of its values.
 */
module Fingerprint {

  /** http.Header: a header name and its values, in received order. */
  type Header = map<string, seq<string>>

  /** strings.Join(vs, ""): the values concatenated with no separator. */
  function Concat(vs: seq<string>): (r: string)
    ensures |vs| == 1 ==> r == vs[0]
    ensures forall i :: 0 <= i < |vs| ==> |vs[i]| <= |r|
    ensures |vs| > 0 ==> r[..|vs[0]|] == vs[0]
  {
    if |vs| == 0 then "" else vs[0] + Concat(vs[1..])
  }

  /** Joining one more value appends exactly that value: with the base case
      `Concat([]) == ""`, this fixes Concat as the values joined in order. */
  lemma {:induction false} ConcatSnoc(vs: seq<string>, v: string)
    ensures Concat([]) == ""
    ensures Concat(vs + [v]) == Concat(vs) + v
  {
    if |vs| == 0 {
      assert vs + [v] == [v];
    } else {
      assert (vs + [v])[1..] == vs[1..] + [v];
      ConcatSnoc(vs[1..], v);
    }
  }

  /** What one configured name adds: the name and its joined values when the
      request has the header, nothing otherwise. */
  function Piece(name: string, h: Header): string
  {
    if name in h then name + Concat(h[name]) else ""
  }

  /** The pieces of all configured names, in configured order. */
  function Contribution(names: seq<string>, h: Header): string
  {
    if |names| == 0 then "" else Piece(names[0], h) + Contribution(names[1..], h)
  }

  /** The string that is hashed for a request with target `uri` and headers `h`. */
  function Fingerprint(uri: string, names: seq<string>, h: Header): (fp: string)
    ensures |fp| >= |uri| && fp[..|uri|] == uri
  {
    uri + Contribution(names, h)
  }

  /** The configured names that the request carries, in configured order. */
  function Present(names: seq<string>, h: Header): (p: seq<string>)
    ensures forall i :: 0 <= i < |p| ==> p[i] in h && p[i] in names
    ensures |p| <= |names|
  {
    if |names| == 0 then []
    else if names[0] in h then [names[0]] + Present(names[1..], h)
    else Present(names[1..], h)
  }

  /** The fingerprint loop of the request handler: start from the URI and
      append, name by name, the name and its joined values. */
  method BuildFingerprint(uri: string, names: seq<string>, h: Header) returns (tohash: string)
    ensures tohash == Fingerprint(uri, names, h)
  {
    tohash := uri;
    for i := 0 to |names|
      invariant tohash == uri + Contribution(names[..i], h)
    {
      ghost var before := tohash;
      var k := names[i];
      if k in h {
        tohash := tohash + k;
        tohash := tohash + Concat(h[k]);
      }
      AppendPiece(before, k, h);
      PrefixContribution(uri, names, i, h);
    }
    assert names[..|names|] == names;
  }

  /** The two appends of one loop step add exactly the name's piece. */
  lemma AppendPiece(before: string, k: string, h: Header)
    ensures k in h ==> before + k + Concat(h[k]) == before + Piece(k, h)
    ensures k !in h ==> before == before + Piece(k, h)
  {
    if k in h {
      assert before + k + Concat(h[k]) == before + (k + Concat(h[k]));
    } else {
      assert before + "" == before;
    }
  }

  /** One more name of the configured list adds that name's piece. */
  lemma PrefixContribution(uri: string, names: seq<string>, i: nat, h: Header)
    requires i < |names|
    ensures uri + Contribution(names[..i + 1], h) == uri + Contribution(names[..i], h) + Piece(names[i], h)
  {
    assert names[..i + 1] == names[..i] + [names[i]];
    ContributionAppend(names[..i], names[i], h);
  }

  lemma {:induction false} ContributionAppend(names: seq<string>, name: string, h: Header)
    ensures Contribution(names + [name], h) == Contribution(names, h) + Piece(name, h)
  {
    if |names| == 0 {
      assert names + [name] == [name];
    } else {
      assert (names + [name])[1..] == names[1..] + [name];
      ContributionAppend(names[1..], name, h);
    }
  }

  /** Headers that are not configured, and configured ones that are absent,
      have no effect: two requests with the same URI whose headers agree on
      every configured name have the same fingerprint. */
  lemma {:induction false} OnlyConfiguredHeadersMatter(uri: string, names: seq<string>, h1: Header, h2: Header)
    requires forall i :: 0 <= i < |names| ==> (names[i] in h1 <==> names[i] in h2)
    requires forall i :: 0 <= i < |names| && names[i] in h1 ==> h1[names[i]] == h2[names[i]]
    ensures Fingerprint(uri, names, h1) == Fingerprint(uri, names, h2)
  {
    ContributionAgrees(names, h1, h2);
  }

  lemma {:induction false} ContributionAgrees(names: seq<string>, h1: Header, h2: Header)
    requires forall i :: 0 <= i < |names| ==> (names[i] in h1 <==> names[i] in h2)
    requires forall i :: 0 <= i < |names| && names[i] in h1 ==> h1[names[i]] == h2[names[i]]
    ensures Contribution(names, h1) == Contribution(names, h2)
  {
    if |names| > 0 {
      assert Piece(names[0], h1) == Piece(names[0], h2);
      ContributionAgrees(names[1..], h1, h2);
    }
  }

  /** Absent headers contribute nothing: the fingerprint over the configured
      names equals the fingerprint over only those the request carries. */
  lemma {:induction false} AbsentHeadersContributeNothing(uri: string, names: seq<string>, h: Header)
    ensures Fingerprint(uri, names, h) == Fingerprint(uri, Present(names, h), h)
  {
    PresentContribution(names, h);
  }

  lemma {:induction false} PresentContribution(names: seq<string>, h: Header)
    ensures Contribution(names, h) == Contribution(Present(names, h), h)
  {
    if |names| > 0 {
      PresentContribution(names[1..], h);
      if names[0] in h {
        var p := [names[0]] + Present(names[1..], h);
        assert p[0] == names[0] && p[1..] == Present(names[1..], h);
      }
    }
  }

  /** With no separator, a request whose URI ends in a configured name and
      its joined values, and a request for the shorter URI that carries that
      header instead, produce the same fingerprint, so their keys coincide
      even without an md5 collision. */
  lemma FingerprintIsAmbiguous(uri: string, name: string, vs: seq<string>)
    ensures Fingerprint(uri + name + Concat(vs), [name], map[])
         == Fingerprint(uri, [name], map[name := vs])
  {
    assert [name][1..] == [];
    assert Contribution([name], map[]) == "";
    assert Contribution([name], map[name := vs]) == name + Concat(vs);
    assert uri + name + Concat(vs) == uri + (name + Concat(vs));
  }
}
