/** The part of `decodeJwtToken` that is string manipulation: taking the
    payload segment with `split('.')[1]` and turning the base64url alphabet
    (section 5 of RFC 4648) into the standard one. The base64 decoding,
    the percent-decoding and the JSON parsing are foreign calls and are
    represented by a `ClaimsParser`. */
module Jwt {
  import opened Models

  /** What `atob`, `decodeURIComponent` and `JSON.parse` make of a
      standard-alphabet base64 payload: the numeric `exp` claim (seconds
      since the epoch, section 4.1.4 of RFC 7519), or `None` when any of
      them throws or the claim is missing. */
  type ClaimsParser = string -> Option<int>

  /** No character of `p` is `sep`. */
  predicate Free(p: string, sep: char)
  {
    forall j :: 0 <= j < |p| ==> p[j] != sep
  }

  /** `s.split(sep)` for a one-character separator. */
  function Split(s: string, sep: char): (parts: seq<string>)
    ensures |parts| >= 1
    ensures |parts| == 1 <==> sep !in s
    ensures forall i :: 0 <= i < |parts| ==> Free(parts[i], sep)
    decreases |s|
  {
    if s == [] then [[]]
    else
      var rest := Split(s[1..], sep);
      if s[0] == sep then [[]] + rest
      else [[s[0]] + rest[0]] + rest[1..]
  }

  /** `parts.join(sep)`. */
  function Join(parts: seq<string>, sep: char): string
    requires |parts| >= 1
  {
    if |parts| == 1 then parts[0] else parts[0] + [sep] + Join(parts[1..], sep)
  }

  /** Joining the pieces of a split gives back the string. */
  lemma {:induction false} JoinSplit(s: string, sep: char)
    ensures Join(Split(s, sep), sep) == s
    decreases |s|
  {
    if s != [] {
      var rest := Split(s[1..], sep);
      JoinSplit(s[1..], sep);
      if s[0] == sep {
        assert ([[]] + rest)[1..] == rest;
        assert s == [sep] + s[1..];
      } else if |rest| > 1 {
        var parts := [[s[0]] + rest[0]] + rest[1..];
        assert parts[1..] == rest[1..];
        assert s == [s[0]] + s[1..];
      } else {
        assert s == [s[0]] + s[1..];
      }
    }
  }

  /** A leading non-separator character joins the first piece. */
  lemma SplitCons(c: char, u: string, sep: char)
    requires c != sep
    ensures Split([c] + u, sep) == [[c] + Split(u, sep)[0]] + Split(u, sep)[1..]
  {
    assert ([c] + u)[0] == c && ([c] + u)[1..] == u;
  }

  /** Splitting a string that starts with a separator-free piece. */
  lemma {:induction false} SplitFreePrefix(p: string, t: string, sep: char)
    requires Free(p, sep)
    ensures Split(p + t, sep) == [p + Split(t, sep)[0]] + Split(t, sep)[1..]
    decreases |p|
  {
    var st := Split(t, sep);
    if p == [] {
      assert p + t == t && p + st[0] == st[0];
      assert st == [st[0]] + st[1..];
    } else {
      var q := p[1..];
      var rest := Split(q + t, sep);
      SplitFreePrefix(q, t, sep);
      assert rest[0] == q + st[0] && rest[1..] == st[1..];
      calc {
        Split(p + t, sep);
        { assert p + t == [p[0]] + (q + t); }
        Split([p[0]] + (q + t), sep);
        { SplitCons(p[0], q + t, sep); }
        [[p[0]] + rest[0]] + rest[1..];
        { assert [p[0]] + (q + st[0]) == p + st[0]; }
        [p + st[0]] + st[1..];
      }
    }
  }

  /** Splitting a join of separator-free pieces gives back the pieces. */
  lemma {:induction false} SplitJoin(parts: seq<string>, sep: char)
    requires |parts| >= 1
    requires forall i :: 0 <= i < |parts| ==> Free(parts[i], sep)
    ensures Split(Join(parts, sep), sep) == parts
    decreases |parts|
  {
    if |parts| == 1 {
      SplitFreePrefix(parts[0], [], sep);
      assert parts[0] + [] == parts[0];
    } else {
      var tail := Join(parts[1..], sep);
      SplitJoin(parts[1..], sep);
      SplitFreePrefix(parts[0], [sep] + tail, sep);
      assert parts[0] + [sep] + tail == parts[0] + ([sep] + tail);
      assert ([sep] + tail)[0] == sep && ([sep] + tail)[1..] == tail;
      var st := Split([sep] + tail, sep);
      assert st == [[]] + parts[1..];
      assert st[0] == [] && st[1..] == parts[1..];
      assert parts[0] + [] == parts[0];
      assert parts == [parts[0]] + parts[1..];
    }
  }

  /** `token.split('.')[1]`: the payload segment, or `None` when the token
      has no dot (the index is then `undefined`, the decode throws and
      yields `null`). */
  function PayloadSegment(token: string): (seg: Option<string>)
    ensures seg.Some? <==> '.' in token
    ensures seg.Some? ==> Free(seg.value, '.')
  {
    var parts := Split(token, '.');
    if |parts| >= 2 then Some(parts[1]) else None
  }

  /** `s.replace(/from/g, to)`. */
  function ReplaceAll(s: string, from: char, to: char): (r: string)
    ensures |r| == |s|
    ensures forall i :: 0 <= i < |s| ==> r[i] == if s[i] == from then to else s[i]
    decreases |s|
  {
    if s == [] then []
    else [if s[0] == from then to else s[0]] + ReplaceAll(s[1..], from, to)
  }

  /** The substitution on line 206: `-` becomes `+`, `_` becomes `/`. */
  function Base64UrlToBase64(s: string): (r: string)
    ensures |r| == |s| && '-' !in r && '_' !in r
    ensures forall i :: 0 <= i < |s| ==>
      r[i] == (if s[i] == '-' then '+' else if s[i] == '_' then '/' else s[i])
  {
    ReplaceAll(ReplaceAll(s, '-', '+'), '_', '/')
  }

  /** The inverse substitution, from the standard alphabet to the URL-safe one. */
  function Base64ToBase64Url(s: string): (r: string)
    ensures |r| == |s| && '+' !in r && '/' !in r
    ensures forall i :: 0 <= i < |s| ==>
      r[i] == (if s[i] == '+' then '-' else if s[i] == '/' then '_' else s[i])
  {
    ReplaceAll(ReplaceAll(s, '+', '-'), '/', '_')
  }

  /** A URL-safe segment survives the round trip through the standard alphabet. */
  lemma UrlAlphabetRoundTrip(s: string)
    requires '+' !in s && '/' !in s
    ensures Base64ToBase64Url(Base64UrlToBase64(s)) == s
  {
    var r := Base64ToBase64Url(Base64UrlToBase64(s));
    assert forall i :: 0 <= i < |s| ==> r[i] == s[i];
  }

  /** A standard-alphabet string survives the round trip through the URL-safe one. */
  lemma StandardAlphabetRoundTrip(s: string)
    requires '-' !in s && '_' !in s
    ensures Base64UrlToBase64(Base64ToBase64Url(s)) == s
  {
    var r := Base64UrlToBase64(Base64ToBase64Url(s));
    assert forall i :: 0 <= i < |s| ==> r[i] == s[i];
  }

  /** `decodeJwtToken(token)?.exp`: the expiry claim of the payload, if the
      token has a payload segment and the foreign decoders accept it. */
  function DecodeExp(parse: ClaimsParser, token: string): (exp: Option<int>)
    ensures '.' !in token ==> exp.None?
    ensures '.' in token ==> exp == parse(Base64UrlToBase64(Split(token, '.')[1]))
  {
    match PayloadSegment(token)
    case None => None
    case Some(seg) => parse(Base64UrlToBase64(seg))
  }

  /** For a token made of a header, a payload and a signature, none holding
      a dot, the payload segment is the middle piece and the expiry is read
      from it. */
  lemma DecodeThreePartToken(parse: ClaimsParser, header: string, payload: string, signature: string)
    requires Free(header, '.') && Free(payload, '.') && Free(signature, '.')
    ensures PayloadSegment(Join([header, payload, signature], '.')) == Some(payload)
    ensures DecodeExp(parse, Join([header, payload, signature], '.')) == parse(Base64UrlToBase64(payload))
  {
    var parts := [header, payload, signature];
    SplitJoin(parts, '.');
  }
}
