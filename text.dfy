/**
 * JavaScript string helpers used by every form and tag rule of the sites:
 * the whitespace class shared by `String.prototype.trim` and the regular
 * expression escape `\s`, `trim` itself, `indexOf` for one character, and
 * `split`/`join` on a separator.
 *
 * Strings are sequences of characters; JavaScript counts UTF-16 code units,
 * which differs only for characters outside the Basic Multilingual Plane.
 */
module Text {

  /** An optional JavaScript value: `null`/`undefined` or a present one. */
  datatype Option<T> = None | Some(value: T)

  /** JavaScript truthiness of an optional string: present and non-empty. */
  predicate Truthy(v: Option<seq<char>>)
  {
    v.Some? && v.value != []
  }

  /**
   * The characters JavaScript treats as white space or line terminators:
   * what `trim` removes and what `\s` matches.
   */
  predicate IsSpace(c: char)
  {
    || c == '\t' || c == '\n' || c == '\U{000B}' || c == '\U{000C}' || c == '\r'
    || c == ' ' || c == '\U{00A0}' || c == '\U{1680}'
    || ('\U{2000}' <= c <= '\U{200A}')
    || c == '\U{2028}' || c == '\U{2029}' || c == '\U{202F}' || c == '\U{205F}'
    || c == '\U{3000}' || c == '\U{FEFF}'
  }

  predicate AllSpace(s: seq<char>)
  {
    forall k :: 0 <= k < |s| ==> IsSpace(s[k])
  }

  /** Drops leading white space. */
  function TrimStart(s: seq<char>): (r: seq<char>)
    ensures |r| <= |s|
  {
    if s != [] && IsSpace(s[0]) then TrimStart(s[1..]) else s
  }

  /** `TrimStart` keeps the suffix after the leading white space, which starts with a non-space. */
  lemma {:induction false} TrimStartSpec(s: seq<char>)
    ensures TrimStart(s) == s[|s| - |TrimStart(s)|..]
    ensures AllSpace(s[..|s| - |TrimStart(s)|])
    ensures TrimStart(s) == [] || !IsSpace(TrimStart(s)[0])
  {
    if s != [] && IsSpace(s[0]) {
      var t := TrimStart(s[1..]);
      TrimStartSpec(s[1..]);
      assert s[1..][..|s[1..]| - |t|] == s[1..|s| - |t|];
    }
  }

  /** Drops trailing white space. */
  function TrimEnd(s: seq<char>): (r: seq<char>)
    ensures |r| <= |s|
  {
    if s != [] && IsSpace(s[|s| - 1]) then TrimEnd(s[..|s| - 1]) else s
  }

  /** `TrimEnd` keeps the prefix before the trailing white space, which ends with a non-space. */
  lemma {:induction false} TrimEndSpec(s: seq<char>)
    ensures TrimEnd(s) == s[..|TrimEnd(s)|]
    ensures AllSpace(s[|TrimEnd(s)|..])
    ensures TrimEnd(s) == [] || !IsSpace(TrimEnd(s)[|TrimEnd(s)| - 1])
  {
    if s != [] && IsSpace(s[|s| - 1]) {
      var t := TrimEnd(s[..|s| - 1]);
      TrimEndSpec(s[..|s| - 1]);
      assert s[..|s| - 1][|t|..] + [s[|s| - 1]] == s[|t|..];
    }
  }

  /** The slice of `s` between `lo` and `lo + |r|` is `r`, and only white space lies outside it. */
  ghost predicate Trimmed(s: seq<char>, r: seq<char>, lo: int)
  {
    0 <= lo <= lo + |r| <= |s| && s[lo..lo + |r|] == r
    && AllSpace(s[..lo]) && AllSpace(s[lo + |r|..])
    && (r == [] || (!IsSpace(r[0]) && !IsSpace(r[|r| - 1])))
  }

  /** `String.prototype.trim`. */
  function Trim(s: seq<char>): (r: seq<char>)
    ensures |r| <= |s|
  {
    TrimEnd(TrimStart(s))
  }

  /** `trim` removes exactly the white space at both ends. */
  lemma TrimSpec(s: seq<char>)
    ensures Trimmed(s, Trim(s), |s| - |TrimStart(s)|)
  {
    TrimKeepsMiddle(s);
    TrimDropsLeading(s);
    TrimDropsTrailing(s);
    TrimEndsNonSpace(s);
  }

  lemma TrimKeepsMiddle(s: seq<char>)
    ensures var lo := |s| - |TrimStart(s)|;
      0 <= lo <= lo + |Trim(s)| <= |s| && s[lo..lo + |Trim(s)|] == Trim(s)
  {
    var t := TrimStart(s);
    var r := TrimEnd(t);
    var lo := |s| - |t|;
    TrimStartSpec(s);
    TrimEndSpec(t);
    assert t == s[lo..] && r == t[..|r|];
  }

  lemma TrimDropsLeading(s: seq<char>)
    ensures AllSpace(s[..|s| - |TrimStart(s)|])
  {
    TrimStartSpec(s);
  }

  lemma TrimDropsTrailing(s: seq<char>)
    ensures AllSpace(s[|s| - |TrimStart(s)| + |Trim(s)|..])
  {
    var t := TrimStart(s);
    var r := TrimEnd(t);
    var lo := |s| - |t|;
    TrimStartSpec(s);
    TrimEndSpec(t);
    assert s[lo + |r|..] == t[|r|..];
  }

  lemma TrimEndsNonSpace(s: seq<char>)
    ensures Trim(s) == [] || (!IsSpace(Trim(s)[0]) && !IsSpace(Trim(s)[|Trim(s)| - 1]))
  {
    var t := TrimStart(s);
    var r := TrimEnd(t);
    TrimStartSpec(s);
    TrimEndSpec(t);
    if r != [] {
      assert r[0] == t[0];
    }
  }

  lemma {:induction false} TrimEmptyIffAllSpace(s: seq<char>)
    ensures Trim(s) == [] <==> AllSpace(s)
  {
    TrimSpec(s);
    var lo := |s| - |TrimStart(s)|;
    if Trim(s) == [] {
      assert s == s[..lo] + s[lo..];
    } else {
      assert s[lo] == Trim(s)[0];
    }
  }

  lemma {:induction false} TrimIdempotent(s: seq<char>)
    ensures Trim(Trim(s)) == Trim(s)
  {
    TrimSpec(s);
    var r := Trim(s);
    assert TrimStart(r) == r;
    assert TrimEnd(r) == r;
  }

  /**
   * `s.indexOf(c)`, and `Array.prototype.find` by position: the first
   * position of `c`, or -1 when absent.
   */
  function IndexOf<T(==)>(s: seq<T>, c: T): (r: int)
    ensures -1 <= r < |s|
    ensures r == -1 <==> c !in s
    ensures r >= 0 ==> s[r] == c && c !in s[..r]
  {
    if s == [] then -1
    else if s[0] == c then 0
    else
      var k := IndexOf(s[1..], c);
      if k == -1 then -1 else
        assert s[..k + 1] == [s[0]] + s[1..][..k];
        k + 1
  }

  /** `pieces.join(sep)`. */
  function Join(pieces: seq<seq<char>>, sep: seq<char>): seq<char>
  {
    if |pieces| == 0 then []
    else if |pieces| == 1 then pieces[0]
    else pieces[0] + sep + Join(pieces[1..], sep)
  }

  /** `s.split(c)` for a one-character separator: the pieces between separators, never none. */
  function Split(s: seq<char>, c: char): (r: seq<seq<char>>)
    ensures |r| >= 1
    ensures forall k :: 0 <= k < |r| ==> c !in r[k]
    ensures Join(r, [c]) == s
    decreases |s|
  {
    var k := IndexOf(s, c);
    if k == -1 then [s]
    else
      var head, rest := s[..k], Split(s[k + 1..], c);
      var r := [head] + rest;
      assert r[0] == head && r[1..] == rest;
      assert Join(r, [c]) == head + [c] + s[k + 1..];
      assert s == head + [c] + s[k + 1..];
      r
  }

  /** Splitting a join of separator-free pieces gives the pieces back. */
  lemma {:induction false} SplitJoin(pieces: seq<seq<char>>, c: char)
    requires |pieces| >= 1
    requires forall k :: 0 <= k < |pieces| ==> c !in pieces[k]
    ensures Split(Join(pieces, [c]), c) == pieces
  {
    var s := Join(pieces, [c]);
    if |pieces| == 1 {
      assert IndexOf(s, c) == -1;
    } else {
      var rest := Join(pieces[1..], [c]);
      assert s == pieces[0] + [c] + rest;
      var p := |pieces[0]|;
      assert s[p] == c && s[..p] == pieces[0];
      assert IndexOf(s, c) == p;
      assert s[p + 1..] == rest;
      SplitJoin(pieces[1..], c);
    }
  }
}
