/** The WebSocket handshake interceptor (`JwtHandshakeInterceptor.beforeHandshake`
    in `WebSocketConfig`): it takes the JWT from the `token=` query parameter
    with two `String.split` calls and stores it as the session attribute
    "jwtToken". Java's `split` on a literal separator is modelled exactly:
    the pieces between occurrences, found left to right, with trailing
    empty pieces dropped, and the whole string when there is no occurrence. */
module Handshake {
  import opened Wrappers
  import opened Text

  const TokenMarker := "token="
  const JwtTokenKey := "jwtToken"

  /** The pieces of `s[from..]` between the occurrences of `sep`. */
  function SplitFrom(s: string, sep: string, from: nat): (parts: seq<string>)
    requires |sep| > 0 && from <= |s|
    ensures |parts| >= 1
    decreases |s| - from
  {
    match IndexOfFrom(s, sep, from)
    case None => [s[from..]]
    case Some(k) => [s[from..k]] + SplitFrom(s, sep, k + |sep|)
  }

  /** The pieces glued back together, `sep` between each two. */
  function Join(parts: seq<string>, sep: string): string
    decreases |parts|
  {
    if parts == [] then "" else if |parts| == 1 then parts[0] else parts[0] + sep + Join(parts[1..], sep)
  }

  /** Splitting loses nothing: the pieces joined with the separator give
      back the string that was split. */
  lemma {:induction false} SplitFromJoins(s: string, sep: string, from: nat)
    requires |sep| > 0 && from <= |s|
    ensures Join(SplitFrom(s, sep, from), sep) == s[from..]
    decreases |s| - from
  {
    match IndexOfFrom(s, sep, from)
    case None =>
    case Some(k) =>
      var rest := SplitFrom(s, sep, k + |sep|);
      SplitFromJoins(s, sep, k + |sep|);
      JoinCons(s[from..k], rest, sep);
      assert s[k..k + |sep|] == sep;
      SliceThree(s, from, k, k + |sep|);
  }

  lemma JoinCons(h: string, rest: seq<string>, sep: string)
    requires |rest| >= 1
    ensures Join([h] + rest, sep) == h + sep + Join(rest, sep)
  {
    assert ([h] + rest)[1..] == rest;
  }

  lemma SliceThree(s: string, i: nat, j: nat, k: nat)
    requires i <= j <= k <= |s|
    ensures s[i..] == s[i..j] + s[j..k] + s[k..]
  {
  }

  /** Drops the empty strings at the end of a list. */
  function DropTrailingEmpty(parts: seq<string>): (r: seq<string>)
    ensures |r| <= |parts| && r == parts[..|r|]
    ensures r == [] || r[|r| - 1] != ""
    ensures forall i :: |r| <= i < |parts| ==> parts[i] == ""
    decreases |parts|
  {
    if parts == [] then []
    else if parts[|parts| - 1] == "" then DropTrailingEmpty(parts[..|parts| - 1])
    else parts
  }

  /** `s.split(sep)` for a separator without regular-expression metacharacters. */
  function JavaSplit(s: string, sep: string): (parts: seq<string>)
    requires |sep| > 0
    ensures !Contains(s, sep) ==> parts == [s]
  {
    IndexOfFinds(s, sep);
    if IndexOfFrom(s, sep, 0).None? then [s] else DropTrailingEmpty(SplitFrom(s, sep, 0))
  }

  /** What the interceptor finds in the query string. `IndexOutOfBounds` is
      the `ArrayIndexOutOfBoundsException` an index into a too-short split
      result throws. */
  datatype Extraction = NoToken | Token(token: string) | IndexOutOfBounds

  /** `query.split("token=")[1].split("&")[0]`, guarded by the null and
      `contains("token=")` check. */
  function ExtractToken(query: Option<string>): (r: Extraction)
    ensures query.None? || !Contains(query.value, TokenMarker) <==> r.NoToken?
  {
    if query.None? || !Contains(query.value, TokenMarker) then NoToken
    else
      var parts := JavaSplit(query.value, TokenMarker);
      if |parts| < 2 then IndexOutOfBounds
      else
        var pieces := JavaSplit(parts[1], "&");
        if |pieces| < 1 then IndexOutOfBounds else Token(pieces[0])
  }

  /** A slice of `s` in which no occurrence of `sep` starts does not contain it. */
  lemma SliceAvoids(s: string, sep: string, from: nat, end: nat)
    requires |sep| > 0 && from <= end <= |s|
    requires forall k :: from <= k < end ==> !OccursAt(s, k, sep)
    ensures !Contains(s[from..end], sep)
  {
    var piece := s[from..end];
    forall j | 0 <= j <= |piece| - |sep| ensures !OccursAt(piece, j, sep) {
      var a, b := piece[j..j + |sep|], s[from + j..from + j + |sep|];
      assert |a| == |b|;
      forall t | 0 <= t < |a| ensures a[t] == b[t] {
        assert a[t] == piece[j + t] == s[from + j + t];
      }
      assert a == b;
      assert !OccursAt(s, from + j, sep);
    }
  }

  /** No piece of a split contains the separator. */
  lemma {:induction false} PiecesAvoidSeparator(s: string, sep: string, from: nat)
    requires |sep| > 0 && from <= |s|
    ensures forall i :: 0 <= i < |SplitFrom(s, sep, from)| ==> !Contains(SplitFrom(s, sep, from)[i], sep)
    decreases |s| - from
  {
    var found := IndexOfFrom(s, sep, from);
    if found.None? {
      SliceAvoids(s, sep, from, |s|);
      assert s[from..|s|] == s[from..];
    } else {
      var k := found.value;
      SliceAvoids(s, sep, from, k);
      PiecesAvoidSeparator(s, sep, k + |sep|);
      ConsAvoids(s[from..k], SplitFrom(s, sep, k + |sep|), sep);
    }
  }

  lemma ConsAvoids(h: string, t: seq<string>, sep: string)
    requires !Contains(h, sep) && forall i :: 0 <= i < |t| ==> !Contains(t[i], sep)
    ensures forall i :: 0 <= i < |[h] + t| ==> !Contains(([h] + t)[i], sep)
  {
  }

  /** No element of a split result contains the separator. */
  lemma JavaSplitAvoidsSeparator(s: string, sep: string)
    requires |sep| > 0
    ensures forall i :: 0 <= i < |JavaSplit(s, sep)| ==> !Contains(JavaSplit(s, sep)[i], sep)
  {
    IndexOfFinds(s, sep);
    if IndexOfFrom(s, sep, 0).Some? {
      PiecesAvoidSeparator(s, sep, 0);
    }
  }

  /** A stored token never contains '&'. */
  lemma TokenHasNoAmpersand(query: Option<string>)
    requires ExtractToken(query).Token?
    ensures '&' !in ExtractToken(query).token
  {
    var parts := JavaSplit(query.value, TokenMarker);
    JavaSplitAvoidsSeparator(parts[1], "&");
    var t := ExtractToken(query).token;
    forall i | 0 <= i < |t| ensures t[i] != '&' {
      assert !OccursAt(t, i, "&");
      assert t[i..i + 1] == [t[i]];
    }
  }

  /** In `P + "token=" + X` with no "token=" in `P`, the first "token=" is
      the one after `P`. */
  lemma FirstMarker(p: string, x: string)
    requires !Contains(p, TokenMarker)
    ensures IndexOfFrom(p + TokenMarker + x, TokenMarker, 0) == Some(|p|)
  {
    var q := p + TokenMarker + x;
    assert q[|p|..|p| + 6] == TokenMarker;
    assert OccursAt(q, |p|, TokenMarker);
    forall k | 0 <= k < |p| ensures !OccursAt(q, k, TokenMarker) {
      if k + 6 <= |p| {
        assert q[k..k + 6] == p[k..k + 6];
        assert !OccursAt(p, k, TokenMarker);
      } else {
        assert q[k + 5] == TokenMarker[k + 5 - |p|];
        assert q[k + 5] != '=';
      }
    }
  }

  /** After the marker, the next "token=" lies beyond `T`, and past an '&'
      when anything follows `T`. */
  lemma NoMarkerInToken(q: string, start: nat, t: string, rest: string)
    requires start <= |q| && q[start..] == t + rest
    requires !Contains(t, TokenMarker) && (rest == "" || rest[0] == '&')
    ensures forall k :: start <= k <= start + |t| ==> !OccursAt(q, k, TokenMarker)
  {
    forall k | start <= k <= start + |t| ensures !OccursAt(q, k, TokenMarker) {
      if k + 6 <= start + |t| {
        assert q[k..k + 6] == t[k - start..k - start + 6];
        assert !OccursAt(t, k - start, TokenMarker);
      } else if rest != "" && k + 6 <= |q| {
        var j := start + |t|;
        assert q[j] == rest[0];
        assert q[k..k + 6][j - k] == '&';
      }
    }
  }

  /** The piece that starts where `T` does runs through `T` and ends
      there or at an '&'. */
  lemma PieceAfter(q: string, start: nat, t: string, rest: string)
    requires start <= |q| && q[start..] == t + rest
    requires forall k :: start <= k <= start + |t| ==> !OccursAt(q, k, TokenMarker)
    requires rest == "" || rest[0] == '&'
    ensures var piece := SplitFrom(q, TokenMarker, start)[0];
            && |piece| >= |t| && piece[..|t|] == t
            && (|piece| > |t| ==> piece[|t|] == '&')
  {
    var piece := SplitFrom(q, TokenMarker, start)[0];
    match IndexOfFrom(q, TokenMarker, start)
    case None =>
      assert piece == q[start..];
    case Some(k) =>
      assert k > start + |t|;
      assert piece == q[start..k];
      assert q[start..start + |t|] == q[start..][..|t|] == (t + rest)[..|t|] == t;
      assert piece[..|t|] == q[start..start + |t|];
      assert q[start + |t|] == rest[0];
  }

  /** The second piece of the first split: `T`, then nothing or an '&' and more. */
  lemma SecondPiece(p: string, t: string, rest: string)
    requires !Contains(p, TokenMarker) && !Contains(t, TokenMarker)
    requires rest == "" || rest[0] == '&'
    ensures var q := p + TokenMarker + t + rest;
            var parts := SplitFrom(q, TokenMarker, 0);
            && |parts| >= 2 && parts[0] == p
            && |parts[1]| >= |t| && parts[1][..|t|] == t
            && (|parts[1]| > |t| ==> parts[1][|t|] == '&')
  {
    var q := p + TokenMarker + t + rest;
    assert q == p + TokenMarker + (t + rest);
    FirstMarker(p, t + rest);
    var start := |p| + 6;
    assert q[start..] == t + rest;
    NoMarkerInToken(q, start, t, rest);
    var parts := SplitFrom(q, TokenMarker, 0);
    assert parts[0] == q[..|p|] == p;
    assert parts[1] == SplitFrom(q, TokenMarker, start)[0];
    PieceAfter(q, start, t, rest);
  }

  /** For a query `P + "token=" + T`, optionally followed by '&' and more,
      where `P` holds no "token=" and `T` is non-empty and holds neither '&'
      nor "token=", the interceptor stores exactly `T`. */
  lemma ExtractsToken(p: string, t: string, rest: string)
    requires !Contains(p, TokenMarker) && !Contains(t, TokenMarker)
    requires t != "" && '&' !in t
    requires rest == "" || rest[0] == '&'
    ensures ExtractToken(Some(p + TokenMarker + t + rest)) == Token(t)
  {
    var q := p + TokenMarker + t + rest;
    assert q == p + TokenMarker + (t + rest);
    FirstMarker(p, t + rest);
    assert OccursAt(q, |p|, TokenMarker);
    SecondPiece(p, t, rest);
    var raw := SplitFrom(q, TokenMarker, 0);
    var parts := JavaSplit(q, TokenMarker);
    assert raw[1] != "";
    assert parts == DropTrailingEmpty(raw);
    assert |parts| >= 2 && parts[1] == raw[1];
    AmpersandSplitFirst(parts[1], t);
  }

  /** Splitting `T`, or `T + "&" + ...`, on '&' gives `T` first, when `T` is
      non-empty and has no '&'. */
  lemma AmpersandSplitFirst(piece: string, t: string)
    requires t != "" && '&' !in t
    requires |piece| >= |t| && piece[..|t|] == t
    requires |piece| > |t| ==> piece[|t|] == '&'
    ensures |JavaSplit(piece, "&")| >= 1 && JavaSplit(piece, "&")[0] == t
  {
    if |piece| == |t| {
      assert piece == t;
      forall k | 0 <= k <= |piece| - 1 ensures !OccursAt(piece, k, "&") {
        assert piece[k..k + 1] == [piece[k]];
      }
      IndexOfFinds(piece, "&");
    } else {
      assert piece[|t|..|t| + 1] == "&";
      assert OccursAt(piece, |t|, "&");
      forall k | 0 <= k < |t| ensures !OccursAt(piece, k, "&") {
        assert piece[k..k + 1] == [piece[k]];
        assert piece[k] == t[k];
      }
      assert IndexOfFrom(piece, "&", 0) == Some(|t|);
      var raw := SplitFrom(piece, "&", 0);
      assert raw[0] == piece[..|t|] == t;
      assert DropTrailingEmpty(raw)[0] == t;
    }
  }

  /** A query whose only "token=" ends it has nothing at index 1 of the split:
      the interceptor throws. */
  lemma TrailingMarkerFails(p: string)
    requires !Contains(p, TokenMarker)
    ensures ExtractToken(Some(p + TokenMarker)) == IndexOutOfBounds
  {
    var q := p + TokenMarker;
    assert q == p + TokenMarker + "";
    FirstMarker(p, "");
    assert OccursAt(q, |p|, TokenMarker);
    var raw := SplitFrom(q, TokenMarker, 0);
    assert raw[0] == p;
    assert IndexOfFrom(q, TokenMarker, |q|) == None;
    assert SplitFrom(q, TokenMarker, |q|) == [""];
    assert raw == [p, ""];
    assert |DropTrailingEmpty(raw)| <= 1;
  }

  /** The `attributes` map Spring hands to the interceptor. */
  class Attributes {
    var entries: map<string, string>

    constructor (entries: map<string, string>)
      ensures this.entries == entries
    {
      this.entries := entries;
    }
  }

  /** `beforeHandshake` with the request's query string. It returns true
      whenever it returns; only an index out of bounds stops it, by throwing.
      Only the "jwtToken" attribute is ever written. */
  method BeforeHandshake(query: Option<string>, attributes: Attributes) returns (r: Result<bool, string>)
    modifies attributes
    ensures r.Ok? ==> r.value
    ensures r.Err? <==> ExtractToken(query).IndexOutOfBounds?
    ensures ExtractToken(query).Token? ==> attributes.entries == old(attributes.entries)[JwtTokenKey := ExtractToken(query).token]
    ensures !ExtractToken(query).Token? ==> attributes.entries == old(attributes.entries)
  {
    if query.Some? && Contains(query.value, TokenMarker) {
      var parts := JavaSplit(query.value, TokenMarker);
      if |parts| < 2 {
        return Err("ArrayIndexOutOfBoundsException");
      }
      var pieces := JavaSplit(parts[1], "&");
      if |pieces| < 1 {
        return Err("ArrayIndexOutOfBoundsException");
      }
      attributes.entries := attributes.entries[JwtTokenKey := pieces[0]];
    }
    r := Ok(true);
  }
}
