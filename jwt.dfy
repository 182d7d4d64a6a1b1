/** The client-side token checks: `parseJwt` reads the payload segment of a
    compact JWS (section 7.1 of RFC 7515), turns its base64url alphabet into the
    standard one (section 5 of RFC 4648) and decodes it; `isTokenExpired`
    compares the `exp` claim (section 4.1.4 of RFC 7519) with the current time.
    The signature is never checked. */
module Jwt {
  import opened Wrappers

  /** The claims the client reads from a decoded payload. An absent claim, or
      one the JSON did not carry, is `None`. */
  datatype Payload = Payload(
    exp: Option<int>,
    email: Option<string>,
    preferredUsername: Option<string>,
    sub: Option<string>)

  /** `JSON.parse(atob(text))`, foreign to the client: `None` when either step
      throws or the JSON is `null`. */
  type Decoder = string -> Option<Payload>

  // ------------------------------------------------------------------
  // String.prototype.split with a one-character separator
  // ------------------------------------------------------------------

  /** `s.split(sep)`: the maximal runs of characters between separators. */
  function Split(s: string, sep: char): (parts: seq<string>)
    ensures |parts| >= 1
    ensures |parts| == 1 <==> sep !in s
    ensures forall i :: 0 <= i < |parts| ==> sep !in parts[i]
  {
    if s == [] then [""]
    else
      var rest := Split(s[1..], sep);
      assert s == [s[0]] + s[1..];
      if s[0] == sep then [""] + rest
      else [[s[0]] + rest[0]] + rest[1..]
  }

  /** `parts.join(sep)`, the inverse of `Split`. */
  function Join(parts: seq<string>, sep: char): (s: string)
  {
    if |parts| == 0 then ""
    else if |parts| == 1 then parts[0]
    else parts[0] + [sep] + Join(parts[1..], sep)
  }

  /** Joining the pieces of a split gives back the original text. */
  lemma {:induction false} JoinSplit(s: string, sep: char)
    ensures Join(Split(s, sep), sep) == s
  {
    if s != [] {
      var rest := Split(s[1..], sep);
      JoinSplit(s[1..], sep);
      if s[0] == sep {
        assert Split(s, sep) == [""] + rest;
        assert Join(Split(s, sep), sep) == "" + [sep] + Join(rest, sep);
      } else {
        var parts := Split(s, sep);
        assert parts == [[s[0]] + rest[0]] + rest[1..];
        if |rest| == 1 {
          assert Join(parts, sep) == [s[0]] + rest[0];
        } else {
          assert parts[1..] == rest[1..];
          assert Join(parts, sep) == [s[0]] + rest[0] + [sep] + Join(rest[1..], sep);
          assert Join(rest, sep) == rest[0] + [sep] + Join(rest[1..], sep);
        }
      }
    }
  }

  /** Splitting a join of separator-free pieces gives back the pieces. */
  lemma {:induction false} SplitJoin(parts: seq<string>, sep: char)
    requires |parts| >= 1
    requires forall i :: 0 <= i < |parts| ==> sep !in parts[i]
    ensures Split(Join(parts, sep), sep) == parts
    decreases |parts|, |parts[0]|
  {
    var head := parts[0];
    if head == [] {
      if |parts| > 1 {
        SplitJoin(parts[1..], sep);
        var s := Join(parts, sep);
        assert s == [sep] + Join(parts[1..], sep);
        assert s[1..] == Join(parts[1..], sep);
        assert parts == [""] + parts[1..];
      }
    } else {
      var shorter := [head[1..]] + parts[1..];
      assert forall i :: 0 <= i < |shorter| ==> sep !in shorter[i] by {
        forall i | 0 <= i < |shorter| ensures sep !in shorter[i] {
          if i == 0 {
            assert head == [head[0]] + head[1..];
          } else {
            assert shorter[i] == parts[i];
          }
        }
      }
      SplitJoin(shorter, sep);
      var s := Join(parts, sep);
      assert shorter[1..] == parts[1..];
      if |parts| == 1 {
        assert s == head;
      } else {
        assert s == head + [sep] + Join(parts[1..], sep);
        assert Join(shorter, sep) == head[1..] + [sep] + Join(parts[1..], sep);
      }
      assert s == [head[0]] + Join(shorter, sep);
      assert s[0] == head[0] && s[1..] == Join(shorter, sep);
      assert head[0] != sep by { assert head[0] in head; }
      assert [head[0]] + head[1..] == head;
      assert [head] + parts[1..] == parts;
    }
  }

  // ------------------------------------------------------------------
  // The payload segment
  // ------------------------------------------------------------------

  /** The longest prefix of `s` free of `c`: what precedes the first `c`. */
  function TakeUntil(s: string, c: char): (r: string)
    ensures |r| <= |s| && r == s[..|r|]
    ensures c !in r
    ensures |r| < |s| ==> s[|r|] == c
  {
    if s == [] || s[0] == c then []
    else [s[0]] + TakeUntil(s[1..], c)
  }

  /** `token.split('.')[1]`, which is `undefined` when the token has no '.'. */
  function PayloadSegment(token: string): (seg: Option<string>)
    ensures seg.None? <==> '.' !in token
    ensures seg.Some? ==> '.' !in seg.value
  {
    var parts := Split(token, '.');
    if |parts| >= 2 then Some(parts[1]) else None
  }

  /** The first piece of a split is the text before the first separator. */
  lemma {:induction false} SplitHead(s: string, sep: char)
    ensures Split(s, sep)[0] == TakeUntil(s, sep)
  {
    if s != [] && s[0] != sep {
      SplitHead(s[1..], sep);
    }
  }

  /** After the first separator, a split carries on as a split of the rest. */
  lemma {:induction false} SplitTail(s: string, sep: char)
    requires sep in s
    ensures |TakeUntil(s, sep)| < |s|
    ensures Split(s, sep)[1..] == Split(s[|TakeUntil(s, sep)| + 1..], sep)
  {
    assert s == [s[0]] + s[1..];
    if s[0] != sep {
      SplitTail(s[1..], sep);
      var rest := Split(s[1..], sep);
      assert Split(s, sep)[1..] == rest[1..];
      assert s[1..][|TakeUntil(s[1..], sep)| + 1..] == s[|TakeUntil(s, sep)| + 1..];
    }
  }

  /** Reference reading of the payload segment: the text between the first
      and the second '.' of the token, or up to its end when there is no second. */
  lemma PayloadSegmentBetweenDots(token: string)
    requires '.' in token
    ensures var first := |TakeUntil(token, '.')|;
            first < |token| &&
            PayloadSegment(token) == Some(TakeUntil(token[first + 1..], '.'))
  {
    var first := |TakeUntil(token, '.')|;
    SplitTail(token, '.');
    SplitHead(token[first + 1..], '.');
    assert Split(token, '.')[1] == Split(token, '.')[1..][0];
  }

  // ------------------------------------------------------------------
  // base64url to base64
  // ------------------------------------------------------------------

  /** `s.replace(/from/g, to)` for single characters. */
  function ReplaceAll(s: string, from: char, to: char): (r: string)
    ensures |r| == |s|
    ensures forall i :: 0 <= i < |s| ==> r[i] == if s[i] == from then to else s[i]
  {
    if s == [] then []
    else [if s[0] == from then to else s[0]] + ReplaceAll(s[1..], from, to)
  }

  /** The two replacements applied to the segment before `atob`. */
  function Base64UrlToBase64(seg: string): (r: string)
    ensures |r| == |seg|
    ensures forall i :: 0 <= i < |seg| ==>
      r[i] == if seg[i] == '-' then '+' else if seg[i] == '_' then '/' else seg[i]
    ensures '-' !in r && '_' !in r
  {
    ReplaceAll(ReplaceAll(seg, '-', '+'), '_', '/')
  }

  // ------------------------------------------------------------------
  // parseJwt and isTokenExpired
  // ------------------------------------------------------------------

  /** `parseJwt(token)`: the decoded payload, or `null` whenever any step fails;
      it never throws. */
  function ParseJwt(decode: Decoder, token: string): (p: Option<Payload>)
    ensures '.' !in token ==> p.None?
    ensures '.' in token ==> p == decode(Base64UrlToBase64(PayloadSegment(token).value))
  {
    match PayloadSegment(token)
    case None => None
    case Some(seg) => decode(Base64UrlToBase64(seg))
  }

  /** JavaScript truthiness of the `exp` claim: present and non-zero. */
  predicate ExpTruthy(exp: Option<int>)
    ensures ExpTruthy(exp) ==> exp.Some?
    ensures exp == Some(0) ==> !ExpTruthy(exp)
  {
    exp.Some? && exp.value != 0
  }

  /** `isTokenExpired(token)` at time `now` (milliseconds since the epoch). */
  function IsTokenExpired(decode: Decoder, token: string, now: int): (expired: bool)
    ensures '.' !in token ==> expired
    ensures !expired ==> var p := ParseJwt(decode, token);
      p.Some? && p.value.exp.Some? && p.value.exp.value * 1000 > now
  {
    var payload := ParseJwt(decode, token);
    if payload.None? || !ExpTruthy(payload.value.exp) then true
    else now >= payload.value.exp.value * 1000
  }

  /** A token is live exactly when its payload decodes, carries a truthy
      `exp`, and `exp` seconds lie strictly after `now` milliseconds. */
  lemma NotExpiredIff(decode: Decoder, token: string, now: int)
    ensures !IsTokenExpired(decode, token, now) <==>
      var p := ParseJwt(decode, token);
      p.Some? && p.value.exp.Some? && p.value.exp.value != 0 && p.value.exp.value * 1000 > now
  {
  }

  /** With a non-negative clock the zero test is subsumed: live exactly when
      `exp * 1000 > now`. */
  lemma NotExpiredIffAfterEpoch(decode: Decoder, token: string, now: int)
    requires now >= 0
    ensures !IsTokenExpired(decode, token, now) <==>
      var p := ParseJwt(decode, token);
      p.Some? && p.value.exp.Some? && p.value.exp.value * 1000 > now
  {
  }

  /** Expiry read off the token text itself: the decoded text between the
      first and the second '.' decides. A truthy `exp` strictly after `now`
      makes the token live; a missing or zero `exp`, or one at or before
      `now`, makes it expired. */
  lemma ExpiryFromSegment(decode: Decoder, token: string, now: int, p: Payload)
    requires '.' in token
    requires var first := |TakeUntil(token, '.')|;
             first < |token| &&
             decode(Base64UrlToBase64(TakeUntil(token[first + 1..], '.'))) == Some(p)
    ensures !IsTokenExpired(decode, token, now) <==>
              ExpTruthy(p.exp) && p.exp.value * 1000 > now
  {
    PayloadSegmentBetweenDots(token);
  }

  /** A token without '.' has no payload segment and is always expired. */
  lemma NoDotIsExpired(decode: Decoder, token: string, now: int)
    requires '.' !in token
    ensures ParseJwt(decode, token) == None
    ensures IsTokenExpired(decode, token, now)
  {
  }

  /** An `exp` of 0 is falsy, so the token is expired at every time. */
  lemma ZeroExpIsExpired(decode: Decoder, token: string, now: int)
    requires ParseJwt(decode, token).Some? && ParseJwt(decode, token).value.exp == Some(0)
    ensures IsTokenExpired(decode, token, now)
  {
  }

  /** The instant `exp * 1000` itself already counts as expired. */
  lemma ExpiredAtBoundary(decode: Decoder, token: string, e: int)
    requires ParseJwt(decode, token).Some? && ParseJwt(decode, token).value.exp == Some(e)
    ensures IsTokenExpired(decode, token, e * 1000)
    ensures e > 0 ==> !IsTokenExpired(decode, token, e * 1000 - 1)
  {
  }

  /** Expiry is permanent: once expired, a token stays expired later on. */
  lemma ExpiredStaysExpired(decode: Decoder, token: string, now: int, later: int)
    requires now <= later
    requires IsTokenExpired(decode, token, now)
    ensures IsTokenExpired(decode, token, later)
  {
  }
}
