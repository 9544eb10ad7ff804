/**
 * The string operations of JavaScript that the panel relies on: `String.prototype.trim`,
 * `toLowerCase` (ASCII letters only), `includes`, and the case-insensitive test
 * `/^https?:\/\//i` that appears in three of the source files.
 */
module JsText {

  /** The characters `trim` removes: ECMAScript's WhiteSpace and LineTerminator code points. */
  predicate IsTrimmable(c: char) {
    c == '\t' || c == '\n' || c == '\U{B}' || c == '\U{C}' || c == '\r' || c == ' '
    || c == '\U{A0}' || c == '\U{1680}' || ('\U{2000}' <= c <= '\U{200A}')
    || c == '\U{2028}' || c == '\U{2029}' || c == '\U{202F}' || c == '\U{205F}'
    || c == '\U{3000}' || c == '\U{FEFF}'
  }

  /** `s` with its leading trimmable characters removed. */
  function TrimStart(s: string): string {
    if s != [] && IsTrimmable(s[0]) then TrimStart(s[1..]) else s
  }

  /** `s` with its trailing trimmable characters removed. */
  function TrimEnd(s: string): string {
    if s != [] && IsTrimmable(s[|s| - 1]) then TrimEnd(s[..|s| - 1]) else s
  }

  /** `String.prototype.trim`. */
  function Trim(s: string): string {
    TrimEnd(TrimStart(s))
  }

  /** `TrimStart` drops a run of trimmable characters and stops at the first other one. */
  lemma {:induction false} TrimStartSpec(s: string)
    ensures var r := TrimStart(s);
      |r| <= |s| && r == s[|s| - |r|..]
      && (r == [] || !IsTrimmable(r[0]))
      && forall i :: 0 <= i < |s| - |r| ==> IsTrimmable(s[i])
  {
    if s != [] && IsTrimmable(s[0]) {
      TrimStartSpec(s[1..]);
      var r := TrimStart(s[1..]);
      assert TrimStart(s) == r;
      assert s[1..][|s| - 1 - |r|..] == s[|s| - |r|..];
      forall i | 0 <= i < |s| - |r|
        ensures IsTrimmable(s[i])
      {
        if i > 0 {
          assert s[i] == s[1..][i - 1];
        }
      }
    }
  }

  /** `TrimEnd` drops a run of trimmable characters from the end and stops at the last other one. */
  lemma {:induction false} TrimEndSpec(s: string)
    ensures var r := TrimEnd(s);
      |r| <= |s| && r == s[..|r|]
      && (r == [] || !IsTrimmable(r[|r| - 1]))
      && forall i :: |r| <= i < |s| ==> IsTrimmable(s[i])
  {
    if s != [] && IsTrimmable(s[|s| - 1]) {
      TrimEndSpec(s[..|s| - 1]);
      var r := TrimEnd(s[..|s| - 1]);
      assert TrimEnd(s) == r;
      assert s[..|s| - 1][..|r|] == s[..|r|];
      forall i | |r| <= i < |s|
        ensures IsTrimmable(s[i])
      {
        if i < |s| - 1 {
          assert s[i] == s[..|s| - 1][i];
        }
      }
    }
  }

  /** `trim` returns the middle of its input, with no trimmable character at either end. */
  lemma TrimSpec(s: string)
    ensures var r := Trim(s);
      r == [] || (!IsTrimmable(r[0]) && !IsTrimmable(r[|r| - 1]))
    ensures exists k: nat :: OccursAt(s, Trim(s), k)
  {
    var t := TrimStart(s);
    TrimStartSpec(s);
    TrimEndSpec(t);
    var k := |s| - |t|;
    assert OccursAt(s, Trim(s), k);
  }

  /** Trimming a string with no trimmable character at either end leaves it as it is. */
  lemma TrimOfTrimmed(s: string)
    requires s == [] || (!IsTrimmable(s[0]) && !IsTrimmable(s[|s| - 1]))
    ensures Trim(s) == s
  {
  }

  /** `trim` is idempotent. */
  lemma TrimIdempotent(s: string)
    ensures Trim(Trim(s)) == Trim(s)
  {
    TrimSpec(s);
    TrimOfTrimmed(Trim(s));
  }

  /** `toLowerCase` on one character; letters outside ASCII are left as they are. */
  function LowerChar(c: char): char {
    if 'A' <= c <= 'Z' then (c as int + 32) as char else c
  }

  /** `toLowerCase`, one character at a time. */
  function Lower(s: string): (r: string)
    ensures |r| == |s|
  {
    if s == [] then [] else [LowerChar(s[0])] + Lower(s[1..])
  }

  /** Lower-casing maps every character on its own. */
  lemma {:induction false} LowerAt(s: string)
    ensures forall i :: 0 <= i < |s| ==> Lower(s)[i] == LowerChar(s[i])
  {
    if s != [] {
      LowerAt(s[1..]);
    }
  }

  /** Lower-casing twice is lower-casing once. */
  lemma LowerIdempotent(s: string)
    ensures Lower(Lower(s)) == Lower(s)
  {
    LowerAt(s);
    LowerAt(Lower(s));
  }

  /** Lower-casing commutes with taking a prefix. */
  lemma LowerPrefix(s: string, n: nat)
    requires n <= |s|
    ensures Lower(s[..n]) == Lower(s)[..n]
  {
    LowerAt(s);
    LowerAt(s[..n]);
  }

  /** Lower-casing maps letters to letters, so it never makes a character trimmable or not. */
  lemma LowerKeepsTrimmable(c: char)
    ensures IsTrimmable(LowerChar(c)) == IsTrimmable(c)
  {
  }

  /** `trim` removes the same characters before and after lower-casing. */
  lemma {:induction false} TrimStartLower(s: string)
    ensures TrimStart(Lower(s)) == Lower(TrimStart(s))
  {
    if s != [] {
      assert Lower(s)[0] == LowerChar(s[0]);
      LowerKeepsTrimmable(s[0]);
      assert Lower(s)[1..] == Lower(s[1..]);
      TrimStartLower(s[1..]);
    }
  }

  lemma {:induction false} TrimEndLower(s: string)
    ensures TrimEnd(Lower(s)) == Lower(TrimEnd(s))
  {
    if s != [] {
      LowerAt(s);
      LowerKeepsTrimmable(s[|s| - 1]);
      LowerPrefix(s, |s| - 1);
      TrimEndLower(s[..|s| - 1]);
    }
  }

  /** `s.toLowerCase().trim()` is `s.trim().toLowerCase()`. */
  lemma TrimLowerCommute(s: string)
    ensures Trim(Lower(s)) == Lower(Trim(s))
  {
    TrimStartLower(s);
    TrimEndLower(TrimStart(s));
  }

  /** Lower-casing a trimmed string leaves nothing for `trim` to remove, so `trim` then `toLowerCase` is idempotent. */
  lemma TrimLowerIdempotent(s: string)
    ensures Lower(Trim(Lower(Trim(s)))) == Lower(Trim(s))
  {
    var t := Trim(s);
    TrimSpec(s);
    LowerAt(t);
    TrimOfTrimmed(Lower(t));
    LowerIdempotent(t);
  }

  /** `s` starts with the lower-case `prefix` when compared case-insensitively. */
  predicate StartsWithIgnoringCase(s: string, prefix: string) {
    |prefix| <= |s| && Lower(s[..|prefix|]) == prefix
  }

  /** The test `/^https?:\/\//i.test(s)`. */
  predicate HasHttpScheme(s: string) {
    StartsWithIgnoringCase(s, "http://") || StartsWithIgnoringCase(s, "https://")
  }

  /** What follows a case-insensitive prefix does not matter to the prefix test. */
  lemma StartsWithExtends(s: string, t: string, prefix: string)
    requires StartsWithIgnoringCase(s, prefix)
    ensures StartsWithIgnoringCase(s + t, prefix)
  {
    assert (s + t)[..|prefix|] == s[..|prefix|];
  }

  /** A scheme test that holds of `s` holds of every extension of `s`. */
  lemma HttpSchemeExtends(s: string, t: string)
    requires HasHttpScheme(s)
    ensures HasHttpScheme(s + t)
  {
    if StartsWithIgnoringCase(s, "http://") {
      StartsWithExtends(s, t, "http://");
    } else {
      StartsWithExtends(s, t, "https://");
    }
  }

  /** The scheme test ignores case: an upper-case scheme passes as well. */
  lemma UpperSchemePasses(rest: string)
    ensures HasHttpScheme("HTTPS://" + rest)
  {
    var s := "HTTPS://" + rest;
    assert s[..8] == "HTTPS://";
    assert Lower("HTTPS://") == "https://";
  }

  /** The first character decides, among others, whether the scheme test can pass. */
  lemma SchemeStartsWithH(s: string)
    requires HasHttpScheme(s)
    ensures s != [] && LowerChar(s[0]) == 'h'
  {
    if StartsWithIgnoringCase(s, "http://") {
      LowerAt(s[..7]);
      assert Lower(s[..7])[0] == 'h';
    } else {
      LowerAt(s[..8]);
      assert Lower(s[..8])[0] == 'h';
    }
  }

  /** `q` occurs in `s` starting at index `i`. */
  predicate OccursAt(s: string, q: string, i: nat) {
    i + |q| <= |s| && s[i..i + |q|] == q
  }

  /** `s.includes(q)`, searched from the left. */
  predicate Includes(s: string, q: string)
    decreases |s|
  {
    |q| <= |s| && (s[..|q|] == q || (s != [] && Includes(s[1..], q)))
  }

  /** `Includes` holds exactly when `q` occurs somewhere in `s`. */
  lemma {:induction false} IncludesIffOccurs(s: string, q: string)
    ensures Includes(s, q) <==> exists i: nat :: OccursAt(s, q, i)
    decreases |s|
  {
    if Includes(s, q) {
      if s[..|q|] == q {
        assert OccursAt(s, q, 0);
      } else {
        IncludesIffOccurs(s[1..], q);
        var i: nat :| OccursAt(s[1..], q, i);
        assert s[1..][i..i + |q|] == s[i + 1..i + 1 + |q|];
        assert OccursAt(s, q, i + 1);
      }
    }
    if exists i: nat :: OccursAt(s, q, i) {
      var i: nat :| OccursAt(s, q, i);
      if i == 0 {
        assert s[..|q|] == q;
      } else {
        assert s[1..][i - 1..i - 1 + |q|] == s[i..i + |q|];
        assert OccursAt(s[1..], q, i - 1);
        IncludesIffOccurs(s[1..], q);
      }
    }
  }

  /** Every string includes the empty string. */
  lemma IncludesEmpty(s: string)
    ensures Includes(s, [])
  {
    assert s[..0] == [];
  }
}
