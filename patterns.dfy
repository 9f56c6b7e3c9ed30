/**
 * The two regular expressions the sites validate with.
 *
 * Email, `^[^\s@]+@[^\s@]+\.[^\s@]+$` (js/app.js, script.js, scripts.js):
 * `EmailPattern` is the language of the expression, written as the split
 * points a backtracking matcher may choose; `ValidateEmail` decides it.
 *
 * Phone, `^\+?[0-9\-\s]{7,15}$` (js/app.js): `PhonePattern` is the language,
 * with both readings of the optional `+`; `ValidatePhone` decides it.
 */
module Patterns {
  import opened Text

  /** The character class `[^\s@]`. */
  predicate Plain(c: char)
  {
    !IsSpace(c) && c != '@'
  }

  /** A run `[^\s@]*`. */
  predicate AllPlain(s: seq<char>)
  {
    forall k :: 0 <= k < |s| ==> Plain(s[k])
  }

  /**
   * `s` is local part, `@`, domain, `.`, top-level part, each non-empty and
   * made of `[^\s@]`; `i` is the position of the `@` and `j` of that `.`.
   */
  ghost predicate EmailSplit(s: seq<char>, i: int, j: int)
  {
    0 < i && i + 1 < j && j + 1 < |s| && s[i] == '@' && s[j] == '.'
    && AllPlain(s[..i]) && AllPlain(s[i + 1..j]) && AllPlain(s[j + 1..])
  }

  /** The language of `^[^\s@]+@[^\s@]+\.[^\s@]+$`. */
  ghost predicate EmailPattern(s: seq<char>)
  {
    exists i, j :: EmailSplit(s, i, j)
  }

  /** `/^[^\s@]+@[^\s@]+\.[^\s@]+$/.test(s)`. */
  function ValidateEmail(s: seq<char>): (ok: bool)
    ensures ok <==> EmailPattern(s)
  {
    var at := IndexOf(s, '@');
    EmailDecided(s, at);
    EmailScan(s, at)
  }

  /** Whether the conditions `ValidateEmail` checks hold, for `at` the first `@`. */
  predicate EmailScan(s: seq<char>, at: int)
  {
    0 < at && at + 2 < |s| && AllPlain(s[..at]) && AllPlain(s[at + 1..])
    && '.' in s[at + 2..|s| - 1]
  }

  lemma AllPlainSlice(s: seq<char>, a: int, b: int)
    requires AllPlain(s) && 0 <= a <= b <= |s|
    ensures AllPlain(s[a..b])
  {
    assert forall k :: 0 <= k < b - a ==> s[a..b][k] == s[a + k];
  }

  lemma EmailDecided(s: seq<char>, at: int)
    requires at == IndexOf(s, '@')
    ensures EmailScan(s, at) <==> EmailPattern(s)
  {
    if EmailScan(s, at) {
      EmailScanSound(s, at);
    }
    if EmailPattern(s) {
      var i, j :| EmailSplit(s, i, j);
      EmailScanComplete(s, at, i, j);
    }
  }

  lemma EmailScanSound(s: seq<char>, at: int)
    requires at == IndexOf(s, '@') && EmailScan(s, at)
    ensures EmailPattern(s)
  {
    var mid := s[at + 2..|s| - 1];
    var d :| 0 <= d < |mid| && mid[d] == '.';
    var j := at + 2 + d;
    var tail := s[at + 1..];
    assert s[j] == '.';
    AllPlainSlice(tail, 0, j - at - 1);
    assert tail[0..j - at - 1] == s[at + 1..j];
    AllPlainSlice(tail, j - at, |tail|);
    assert tail[j - at..|tail|] == s[j + 1..];
    assert EmailSplit(s, at, j);
  }

  lemma EmailScanComplete(s: seq<char>, at: int, i: int, j: int)
    requires at == IndexOf(s, '@') && EmailSplit(s, i, j)
    ensures EmailScan(s, at)
  {
    assert s[..i][i - 1] == s[i - 1];
    assert at == i;
    forall k | at + 1 <= k < |s|
      ensures Plain(s[k])
    {
      if k < j {
        assert s[i + 1..j][k - i - 1] == s[k];
      } else if k > j {
        assert s[j + 1..][k - j - 1] == s[k];
      }
    }
    assert AllPlain(s[at + 1..]);
    assert s[at + 2..|s| - 1][j - at - 2] == '.';
  }

  /** The character class `[0-9\-\s]`. */
  predicate PhoneChar(c: char)
  {
    ('0' <= c <= '9') || c == '-' || IsSpace(c)
  }

  /** A run `[0-9\-\s]*`. */
  predicate AllPhoneChars(t: seq<char>)
  {
    t == [] || (PhoneChar(t[0]) && AllPhoneChars(t[1..]))
  }

  /** `[0-9\-\s]{7,15}` matched against the whole of `t`. */
  predicate PhoneBody(t: seq<char>)
  {
    7 <= |t| <= 15 && AllPhoneChars(t)
  }

  /** The language of `^\+?[0-9\-\s]{7,15}$`: the `+` either absent or taken. */
  ghost predicate PhonePattern(s: seq<char>)
  {
    PhoneBody(s) || (|s| >= 1 && s[0] == '+' && PhoneBody(s[1..]))
  }

  /** `/^\+?[0-9\-\s]{7,15}$/.test(s)`: a leading `+` can only be the optional one. */
  function ValidatePhone(s: seq<char>): (ok: bool)
    ensures ok <==> PhonePattern(s)
  {
    var body := if |s| >= 1 && s[0] == '+' then s[1..] else s;
    assert |s| >= 1 && s[0] == '+' ==> !PhoneBody(s) by {
      assert !PhoneChar('+');
    }
    PhoneBody(body)
  }

  lemma {:induction false} EmailHasOneAt(s: seq<char>)
    requires EmailPattern(s)
    ensures multiset(s)['@'] == 1
  {
    var i, j :| EmailSplit(s, i, j);
    var local, domain, top := s[..i], s[i + 1..j], s[j + 1..];
    assert s == local + ['@'] + domain + ['.'] + top;
    AllPlainHasNoAt(local);
    AllPlainHasNoAt(domain);
    AllPlainHasNoAt(top);
    assert multiset(s) == multiset(local) + multiset{'@'} + multiset(domain) + multiset{'.'} + multiset(top);
  }

  lemma {:induction false} AllPlainHasNoAt(s: seq<char>)
    requires AllPlain(s)
    ensures multiset(s)['@'] == 0
  {
    assert '@' !in s;
  }

  lemma EmailRejectsSpace(s: seq<char>, k: int)
    requires 0 <= k < |s| && IsSpace(s[k])
    ensures !ValidateEmail(s)
  {
    if EmailPattern(s) {
      var i, j :| EmailSplit(s, i, j);
    }
  }

  /** A plain address matches. */
  lemma EmailAccepts()
    ensures ValidateEmail("a@b.co")
  {
    assert EmailSplit("a@b.co", 1, 3);
  }

  /** No dot after the `@`, an empty local part, and a second `@` are each rejected. */
  lemma EmailRejects()
    ensures !ValidateEmail("a@b")
    ensures !ValidateEmail("@b.co")
    ensures !ValidateEmail("a@@b.co")
  {
    EmailHasOneAtContra("a@@b.co");
  }

  lemma EmailHasOneAtContra(s: seq<char>)
    requires multiset(s)['@'] != 1
    ensures !EmailPattern(s)
  {
    if EmailPattern(s) {
      EmailHasOneAt(s);
    }
  }
}
