/**
 * `String.prototype.trim` and `String.prototype.toLowerCase` on ASCII text, shared by the
 * pages that refuse blank input and by the code that normalises what the user typed.
 */
module Text {
  predicate IsSpace(c: char) {
    c == ' ' || c == '\t' || c == '\n' || c == '\r' || c == '\U{0B}' || c == '\U{0C}'
  }

  /** `trim()` on ASCII whitespace: the longest middle part that neither starts nor ends
      with a space. */
  function Trim(s: string): (r: string)
    ensures exists i, j :: 0 <= i <= j <= |s| && r == s[i..j]
              && (forall k :: 0 <= k < i ==> IsSpace(s[k]))
              && (forall k :: j <= k < |s| ==> IsSpace(s[k]))
    ensures r != [] ==> !IsSpace(r[0]) && !IsSpace(r[|r| - 1])
    ensures r == [] <==> forall k :: 0 <= k < |s| ==> IsSpace(s[k])
  {
    var i := LeadingSpaces(s, 0);
    var j := TrailingEnd(s, i, |s|);
    s[i..j]
  }

  function LeadingSpaces(s: string, i: nat): (r: nat)
    requires i <= |s|
    requires forall k :: 0 <= k < i ==> IsSpace(s[k])
    ensures i <= r <= |s|
    ensures forall k :: 0 <= k < r ==> IsSpace(s[k])
    ensures r < |s| ==> !IsSpace(s[r])
    decreases |s| - i
  {
    if i < |s| && IsSpace(s[i]) then LeadingSpaces(s, i + 1) else i
  }

  function TrailingEnd(s: string, lo: nat, j: nat): (r: nat)
    requires lo <= j <= |s|
    requires lo < |s| ==> !IsSpace(s[lo])
    requires forall k :: j <= k < |s| ==> IsSpace(s[k])
    ensures lo <= r <= j
    ensures forall k :: r <= k < |s| ==> IsSpace(s[k])
    ensures r > lo ==> !IsSpace(s[r - 1])
    ensures r == lo ==> lo == |s| || j == lo
    decreases j
  {
    if j > lo && IsSpace(s[j - 1]) then TrailingEnd(s, lo, j - 1) else j
  }

  function LowerChar(c: char): char {
    if 'A' <= c <= 'Z' then (c as int + 32) as char else c
  }

  /** `toLowerCase` on ASCII text. */
  function ToLower(s: string): (r: string)
    ensures |r| == |s|
    ensures forall i :: 0 <= i < |s| ==> r[i] == LowerChar(s[i])
  {
    if s == [] then [] else [LowerChar(s[0])] + ToLower(s[1..])
  }

  /** Lowercasing a text character by character gives `l`. */
  lemma LowersTo(s: string, l: string)
    requires |s| == |l| && forall i :: 0 <= i < |s| ==> LowerChar(s[i]) == l[i]
    ensures ToLower(s) == l
  {
  }

  lemma ToLowerIdempotent(s: string)
    ensures ToLower(ToLower(s)) == ToLower(s)
  {
  }
}
