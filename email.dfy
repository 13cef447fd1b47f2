/**
 * The e-mail check of the signup schema (`UserCreate.validate_email` in
 * backend/schemas.py) and the schema's default dosha.
 *
 * The schema matches the address with `re.match` against
 *   ^[a-zA-Z0-9._%+-]+@[a-zA-Z0-9.-]+\.[a-zA-Z]{2,}$
 * The model restates that pattern by hand over ASCII characters:
 * `IsValidEmail` finds the first '@' and the last '.' after it, and
 * `RegexAccepts` is the pattern read the way the regular expression reads it
 * (some split of the string into the three character runs). The two are
 * proved equal. Python's `$` also matches just before a single trailing
 * newline, so an address followed by one "\n" is accepted too.
 */
module EmailSchema {
  import opened Wrappers

  predicate IsAsciiLetter(c: char) {
    'a' <= c <= 'z' || 'A' <= c <= 'Z'
  }

  predicate IsAsciiDigit(c: char) {
    '0' <= c <= '9'
  }

  /** The class `[a-zA-Z0-9._%+-]` of the local part. */
  predicate IsLocalChar(c: char) {
    IsAsciiLetter(c) || IsAsciiDigit(c) || c == '.' || c == '_' || c == '%' || c == '+' || c == '-'
  }

  /** The class `[a-zA-Z0-9.-]` of the domain before its last dot. */
  predicate IsDomainChar(c: char) {
    IsAsciiLetter(c) || IsAsciiDigit(c) || c == '.' || c == '-'
  }

  predicate AllLocal(s: string) {
    forall i :: 0 <= i < |s| ==> IsLocalChar(s[i])
  }

  predicate AllDomain(s: string) {
    forall i :: 0 <= i < |s| ==> IsDomainChar(s[i])
  }

  predicate AllLetters(s: string) {
    forall i :: 0 <= i < |s| ==> IsAsciiLetter(s[i])
  }

  /** Index of the first occurrence of `c` in `s`. */
  function IndexOf(s: string, c: char): (r: Option<nat>)
    ensures r.Some? ==> r.value < |s| && s[r.value] == c && forall j :: 0 <= j < r.value ==> s[j] != c
    ensures r.None? ==> forall j :: 0 <= j < |s| ==> s[j] != c
  {
    if s == [] then None
    else if s[0] == c then Some(0)
    else match IndexOf(s[1..], c)
      case None => None
      case Some(k) => Some(k + 1)
  }

  /** Index of the last occurrence of `c` in `s`. */
  function LastIndexOf(s: string, c: char): (r: Option<nat>)
    ensures r.Some? ==> r.value < |s| && s[r.value] == c && forall j :: r.value < j < |s| ==> s[j] != c
    ensures r.None? ==> forall j :: 0 <= j < |s| ==> s[j] != c
  {
    if s == [] then None
    else if s[|s| - 1] == c then Some(|s| - 1)
    else LastIndexOf(s[..|s| - 1], c)
  }

  /** The whole pattern between `^` and the end of the string. The shortest match, such as
      "a@b.cc", has six characters. */
  predicate MatchesWhole(s: string)
    ensures MatchesWhole(s) ==> |s| >= 6
  {
    match IndexOf(s, '@')
    case None => false
    case Some(at) =>
      var domain := s[at + 1..];
      match LastIndexOf(domain, '.')
      case None => false
      case Some(dot) =>
        && 0 < at && 0 < dot && |domain| - dot - 1 >= 2
        && AllLocal(s[..at]) && AllDomain(domain[..dot]) && AllLetters(domain[dot + 1..])
  }

  /** What `re.match(pattern, s)` accepts: the pattern, optionally followed by one newline. */
  predicate IsValidEmail(s: string)
    ensures IsValidEmail(s) ==> |s| >= 6
  {
    MatchesWhole(s) || (|s| > 0 && s[|s| - 1] == '\n' && MatchesWhole(s[..|s| - 1]))
  }

  /** `validate_email`: the address unchanged when it matches, the error message otherwise. */
  function ValidateEmail(v: string): (r: Result<string, string>)
    ensures r.Ok? <==> IsValidEmail(v)
    ensures r.Ok? ==> r.value == v
    ensures r.Err? ==> r.error == "Invalid email format"
  {
    if IsValidEmail(v) then Ok(v) else Err("Invalid email format")
  }

  /** The pattern read as a regular expression: an '@' at `at` and a '.' at `dot` cut `s`
      into a non-empty local run, a non-empty domain run and a run of two or more letters. */
  ghost predicate SplitMatches(s: string, at: int, dot: int) {
    && 0 < at && at + 1 < dot && dot + 2 < |s|
    && s[at] == '@' && s[dot] == '.'
    && AllLocal(s[..at]) && AllDomain(s[at + 1..dot]) && AllLetters(s[dot + 1..])
  }

  ghost predicate RegexMatchesWhole(s: string) {
    exists at, dot :: SplitMatches(s, at, dot)
  }

  ghost predicate RegexAccepts(s: string) {
    RegexMatchesWhole(s) || (|s| > 0 && s[|s| - 1] == '\n' && RegexMatchesWhole(s[..|s| - 1]))
  }

  lemma IndexOfIsFirst(s: string, c: char, i: nat)
    requires i < |s| && s[i] == c
    requires forall j :: 0 <= j < i ==> s[j] != c
    ensures IndexOf(s, c) == Some(i)
  {
  }

  lemma LastIndexOfIsLast(s: string, c: char, i: nat)
    requires i < |s| && s[i] == c
    requires forall j :: i < j < |s| ==> s[j] != c
    ensures LastIndexOf(s, c) == Some(i)
  {
  }

  /** The scan's cut is a split the regular expression finds. */
  lemma ScanImpliesRegex(s: string)
    requires MatchesWhole(s)
    ensures RegexMatchesWhole(s)
  {
    var at := IndexOf(s, '@').value;
    var domain := s[at + 1..];
    var dot := LastIndexOf(domain, '.').value;
    assert s[at + 1..at + 1 + dot] == domain[..dot];
    assert s[at + 1 + dot + 1..] == domain[dot + 1..];
    assert SplitMatches(s, at, at + 1 + dot);
  }

  /** Any split the regular expression finds is the scan's cut: no local character is '@',
      so `at` is the first '@'; no letter is '.', so `dot` is the last '.' after it. */
  lemma RegexImpliesScan(s: string, at: int, dot: int)
    requires SplitMatches(s, at, dot)
    ensures MatchesWhole(s)
  {
    forall j | 0 <= j < at ensures s[j] != '@' {
      assert IsLocalChar(s[..at][j]);
    }
    IndexOfIsFirst(s, '@', at);
    var domain := s[at + 1..];
    var k := dot - at - 1;
    forall j | k < j < |domain| ensures domain[j] != '.' {
      assert IsAsciiLetter(s[dot + 1..][j - k - 1]);
    }
    LastIndexOfIsLast(domain, '.', k);
    assert domain[..k] == s[at + 1..dot];
    assert domain[k + 1..] == s[dot + 1..];
  }

  /** The hand-written scan accepts exactly the strings the regular expression matches. */
  lemma MatchesWholeIffRegex(s: string)
    ensures MatchesWhole(s) <==> RegexMatchesWhole(s)
  {
    if MatchesWhole(s) {
      ScanImpliesRegex(s);
    }
    if RegexMatchesWhole(s) {
      var at, dot :| SplitMatches(s, at, dot);
      RegexImpliesScan(s, at, dot);
    }
  }

  lemma {:induction false} IsValidEmailIffRegex(s: string)
    ensures IsValidEmail(s) <==> RegexAccepts(s)
  {
    MatchesWholeIffRegex(s);
    if |s| > 0 {
      MatchesWholeIffRegex(s[..|s| - 1]);
    }
  }

  function CountChar(s: string, c: char): (n: nat)
    ensures n <= |s|
  {
    if s == [] then 0 else (if s[0] == c then 1 else 0) + CountChar(s[1..], c)
  }

  lemma {:induction false} CountCharAppend(a: string, b: string, c: char)
    ensures CountChar(a + b, c) == CountChar(a, c) + CountChar(b, c)
  {
    if a == [] {
      assert a + b == b;
    } else {
      assert (a + b)[1..] == a[1..] + b;
      CountCharAppend(a[1..], b, c);
    }
  }

  lemma {:induction false} CountCharAbsent(s: string, c: char)
    requires forall i :: 0 <= i < |s| ==> s[i] != c
    ensures CountChar(s, c) == 0
  {
    if s != [] {
      CountCharAbsent(s[1..], c);
    }
  }

  lemma {:induction false} NoAtInLocal(t: string)
    requires AllLocal(t)
    ensures CountChar(t, '@') == 0
  {
    forall i | 0 <= i < |t| ensures t[i] != '@' {
      assert IsLocalChar(t[i]);
    }
    CountCharAbsent(t, '@');
  }

  lemma {:induction false} NoAtInDomain(t: string)
    requires AllDomain(t)
    ensures CountChar(t, '@') == 0
  {
    forall i | 0 <= i < |t| ensures t[i] != '@' {
      assert IsDomainChar(t[i]);
    }
    CountCharAbsent(t, '@');
  }

  lemma {:induction false} NoAtInLetters(t: string)
    requires AllLetters(t)
    ensures CountChar(t, '@') == 0
  {
    forall i | 0 <= i < |t| ensures t[i] != '@' {
      assert IsAsciiLetter(t[i]);
    }
    CountCharAbsent(t, '@');
  }

  /** A string the pattern splits has exactly one '@'. */
  lemma SplitHasOneAt(s: string, at: int, dot: int)
    requires SplitMatches(s, at, dot)
    ensures CountChar(s, '@') == 1
  {
    var local, domain, top := s[..at], s[at + 1..dot], s[dot + 1..];
    assert s == local + ([s[at]] + (domain + ([s[dot]] + top)));
    NoAtInLocal(local);
    NoAtInDomain(domain);
    NoAtInLetters(top);
    CountCharAppend([s[dot]], top, '@');
    CountCharAppend(domain, [s[dot]] + top, '@');
    CountCharAppend([s[at]], domain + ([s[dot]] + top), '@');
    CountCharAppend(local, [s[at]] + (domain + ([s[dot]] + top)), '@');
  }

  /** An address the pattern accepts has exactly one '@'. */
  lemma AcceptedHasOneAt(s: string)
    requires MatchesWhole(s)
    ensures CountChar(s, '@') == 1
  {
    ScanImpliesRegex(s);
    var at, dot :| SplitMatches(s, at, dot);
    SplitHasOneAt(s, at, dot);
  }

  /** The top-level run is letters only, so a string the whole pattern matches ends in a
      letter, never in a newline. */
  lemma WholeMatchEndsInLetter(s: string)
    ensures MatchesWhole(s) ==> |s| > 0 && IsAsciiLetter(s[|s| - 1])
  {
    if MatchesWhole(s) {
      ScanImpliesRegex(s);
      var at, dot :| SplitMatches(s, at, dot);
      assert s[|s| - 1] == s[dot + 1..][|s| - dot - 2];
    }
  }

  lemma AcceptsShortAddress()
    ensures MatchesWhole("a@b.cc")
  {
    var s := "a@b.cc";
    assert AllLocal(s[..1]) by { assert s[..1] == "a"; }
    assert AllDomain(s[2..3]) by { assert s[2..3] == "b"; }
    assert AllLetters(s[4..]) by { assert s[4..] == "cc"; }
    RegexImpliesScan(s, 1, 3);
  }

  /** `re.match` with `$` accepts one trailing newline but not two. */
  lemma TrailingNewline()
    ensures IsValidEmail("a@b.cc\n")
    ensures !IsValidEmail("a@b.cc\n\n")
    ensures !MatchesWhole("a@b.cc\n")
  {
    AcceptsShortAddress();
    assert "a@b.cc\n"[..6] == "a@b.cc";
    WholeMatchEndsInLetter("a@b.cc\n");
    assert "a@b.cc\n\n"[..7] == "a@b.cc\n";
    WholeMatchEndsInLetter("a@b.cc\n\n");
  }

  lemma AcceptsDottedAddress()
    ensures IsValidEmail("a.b+c@mail.in")
  {
    var s := "a.b+c@mail.in";
    assert AllLocal(s[..5]) by { assert s[..5] == "a.b+c"; }
    assert AllDomain(s[6..10]) by { assert s[6..10] == "mail"; }
    assert AllLetters(s[11..]) by { assert s[11..] == "in"; }
    RegexImpliesScan(s, 5, 10);
  }

  lemma RejectsMissingDot()
    ensures !IsValidEmail("ab@cd")
  {
    IndexOfIsFirst("ab@cd", '@', 2);
    assert "ab@cd"[3..] == "cd";
  }

  lemma RejectsEmptyLocalPart()
    ensures !IsValidEmail("@cd.in")
  {
    IndexOfIsFirst("@cd.in", '@', 0);
  }

  lemma RejectsOneLetterTopLevel()
    ensures !IsValidEmail("ab@cd.e")
  {
    IndexOfIsFirst("ab@cd.e", '@', 2);
    assert "ab@cd.e"[3..] == "cd.e";
    LastIndexOfIsLast("cd.e", '.', 2);
  }

  /** `UserCreate.dosha`: the dosha a signup request carries when it names none. */
  const DefaultDosha: string := "vata"

  function DoshaOrDefault(dosha: Option<string>): string
  {
    if dosha.Some? then dosha.value else DefaultDosha
  }
}
