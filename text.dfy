/**
 * The two string operations both pages use to normalise user input:
 * `String.prototype.trim` and `String.prototype.toUpperCase`, restricted to
 * ASCII (whitespace is space, tab, line feed, vertical tab, form feed and
 * carriage return; only `a`..`z` change case).
 */
module Text {

  /** The ASCII whitespace that `trim` removes: ' ' and '\t' .. '\r'. */
  predicate IsSpace(c: char) {
    c == ' ' || ('\t' <= c <= '\r')
  }

  predicate AllSpace(s: string) {
    forall k :: 0 <= k < |s| ==> IsSpace(s[k])
  }

  /** Neither end of `s` is whitespace (vacuously so for the empty string). */
  predicate Tight(s: string) {
    s == [] || (!IsSpace(s[0]) && !IsSpace(s[|s| - 1]))
  }

  /** Length of the longest all-whitespace prefix of `s`. */
  function LeadingSpaces(s: string): (n: nat)
    ensures n <= |s|
    ensures forall k :: 0 <= k < n ==> IsSpace(s[k])
    ensures n < |s| ==> !IsSpace(s[n])
  {
    if s == [] || !IsSpace(s[0]) then 0 else 1 + LeadingSpaces(s[1..])
  }

  /** Length of the longest all-whitespace suffix of `s`. */
  function TrailingSpaces(s: string): (n: nat)
    ensures n <= |s|
    ensures forall k :: |s| - n <= k < |s| ==> IsSpace(s[k])
    ensures n < |s| ==> !IsSpace(s[|s| - 1 - n])
  {
    if s == [] || !IsSpace(s[|s| - 1]) then 0 else 1 + TrailingSpaces(s[..|s| - 1])
  }

  /** `s.trim()`: `s` without its leading and trailing whitespace. */
  function Trim(s: string): (r: string)
    ensures |r| <= |s|
    ensures r == [] <==> AllSpace(s)
    ensures Tight(r)
    ensures r != [] ==> LeadingSpaces(s) + |r| + TrailingSpaces(s) == |s| && r == s[LeadingSpaces(s)..|s| - TrailingSpaces(s)]
  {
    var lead := LeadingSpaces(s);
    if lead == |s| then
      []
    else
      var trail := TrailingSpaces(s);
      assert !IsSpace(s[lead]);
      s[lead..|s| - trail]
  }

  /** ASCII `toUpperCase` of one character. */
  function UpperChar(c: char): char {
    if 'a' <= c <= 'z' then (c as int - 'a' as int + 'A' as int) as char else c
  }

  /** `s.toUpperCase()`, character by character. */
  function Upper(s: string): (r: string)
    ensures |r| == |s|
    ensures forall k :: 0 <= k < |s| ==> r[k] == UpperChar(s[k])
  {
    if s == [] then [] else [UpperChar(s[0])] + Upper(s[1..])
  }

  /** A string `toUpperCase` leaves as it is. */
  predicate NoLowerCase(s: string) {
    forall k :: 0 <= k < |s| ==> !('a' <= s[k] <= 'z')
  }

  /** Upper-casing leaves no lower-case letter and is idempotent. */
  lemma UpperIsNormal(s: string)
    ensures NoLowerCase(Upper(s))
    ensures Upper(Upper(s)) == Upper(s)
  {
  }

  /** A string without lower-case letters is its own upper case. */
  lemma UpperOfNoLowerCase(s: string)
    requires NoLowerCase(s)
    ensures Upper(s) == s
  {
  }

  /** Upper-casing maps whitespace to whitespace and nothing else to whitespace. */
  lemma UpperCharKeepsSpace(c: char)
    ensures IsSpace(UpperChar(c)) == IsSpace(c)
  {
  }

  lemma LeadingSpacesOfPadded(pre: string, rest: string)
    requires AllSpace(pre) && rest != [] && !IsSpace(rest[0])
    ensures LeadingSpaces(pre + rest) == |pre|
  {
    var s := pre + rest;
    var n := LeadingSpaces(s);
    assert s[|pre|] == rest[0];
    assert forall k :: 0 <= k < |pre| ==> s[k] == pre[k];
  }

  lemma TrailingSpacesOfPadded(rest: string, post: string)
    requires AllSpace(post) && rest != [] && !IsSpace(rest[|rest| - 1])
    ensures TrailingSpaces(rest + post) == |post|
  {
    var s := rest + post;
    var n := TrailingSpaces(s);
    assert s[|rest| - 1] == rest[|rest| - 1];
    assert forall k :: |rest| <= k < |s| ==> s[k] == post[k - |rest|];
  }

  /**
   * Trimming is determined by the decomposition: whitespace, a tight core,
   * whitespace. Whatever padding surrounds a tight core, trim returns the core.
   */
  lemma TrimPadded(pre: string, core: string, post: string)
    requires AllSpace(pre) && AllSpace(post) && Tight(core)
    ensures Trim(pre + core + post) == core
  {
    var s := pre + core + post;
    if core == [] {
      assert AllSpace(s) by {
        forall k | 0 <= k < |s| ensures IsSpace(s[k]) {
          if k < |pre| { assert s[k] == pre[k]; } else { assert s[k] == post[k - |pre|]; }
        }
      }
    } else {
      assert s == pre + (core + post);
      LeadingSpacesOfPadded(pre, core + post);
      TrailingSpacesOfPadded(pre + core, post);
      assert !IsSpace(s[|pre|]);
      assert s[|pre|..|s| - |post|] == core;
    }
  }

  /** Trim is idempotent. */
  lemma TrimIdempotent(s: string)
    ensures Trim(Trim(s)) == Trim(s)
  {
    var r := Trim(s);
    TrimPadded([], r, []);
    assert [] + r + [] == r;
  }

  /** A string is its trimmed core padded with whitespace on both sides. */
  lemma TrimSplit(s: string) returns (pre: string, post: string)
    ensures AllSpace(pre) && AllSpace(post)
    ensures s == pre + Trim(s) + post
  {
    var r := Trim(s);
    if r == [] {
      pre, post := s, [];
      assert s + [] + [] == s;
    } else {
      var i, j := LeadingSpaces(s), |s| - TrailingSpaces(s);
      pre, post := s[..i], s[j..];
      assert forall k :: 0 <= k < |pre| ==> pre[k] == s[k];
      assert forall k :: 0 <= k < |post| ==> post[k] == s[j + k];
      assert s == s[..i] + s[i..j] + s[j..];
    }
  }

  lemma AllSpaceConcat(a: string, b: string)
    requires AllSpace(a) && AllSpace(b)
    ensures AllSpace(a + b)
  {
    forall k | 0 <= k < |a + b| ensures IsSpace((a + b)[k]) {
      if k >= |a| { assert (a + b)[k] == b[k - |a|]; }
    }
  }

  /** Extra whitespace on either side does not change what trim returns. */
  lemma Regroup(pre: string, s: string, post: string, p: string, r: string, q: string)
    requires s == p + r + q
    ensures pre + s + post == (pre + p) + r + (q + post)
  {
  }

  lemma TrimIgnoresPadding(pre: string, s: string, post: string)
    requires AllSpace(pre) && AllSpace(post)
    ensures Trim(pre + s + post) == Trim(s)
  {
    var p, q := TrimSplit(s);
    var r := Trim(s);
    Regroup(pre, s, post, p, r, q);
    AllSpaceConcat(pre, p);
    AllSpaceConcat(q, post);
    TrimPadded(pre + p, r, q + post);
  }
  lemma UpperConcat(a: string, b: string)
    ensures Upper(a + b) == Upper(a) + Upper(b)
  {
  }

  lemma UpperKeepsAllSpace(s: string)
    requires AllSpace(s)
    ensures AllSpace(Upper(s))
  {
    forall k | 0 <= k < |s| ensures IsSpace(Upper(s)[k]) { UpperCharKeepsSpace(s[k]); }
  }

  lemma UpperKeepsTight(s: string)
    requires Tight(s)
    ensures Tight(Upper(s))
  {
    if s != [] {
      UpperCharKeepsSpace(s[0]);
      UpperCharKeepsSpace(s[|s| - 1]);
    }
  }

  /** Trimming and upper-casing commute, so `trim().toUpperCase()` has either order. */
  lemma TrimUpperCommute(s: string)
    ensures Trim(Upper(s)) == Upper(Trim(s))
  {
    var p, q := TrimSplit(s);
    var r := Trim(s);
    UpperConcat(p, r);
    UpperConcat(p + r, q);
    UpperKeepsAllSpace(p);
    UpperKeepsAllSpace(q);
    UpperKeepsTight(r);
    TrimPadded(Upper(p), Upper(r), Upper(q));
  }
}
