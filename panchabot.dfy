/**
 * Panchabot, the canned-answer assistant of frontend/app/panchabot/page.tsx. A question is
 * lowercased and checked against six keyword groups in a fixed order; the first group with
 * a keyword occurring anywhere in the question picks the answer, and a help text answers
 * everything else. A keyword inside a longer word counts too ("eat" in "treatment"); the
 * chat below routes with keywords matched only where a word begins. The chat keeps a list of messages, an input line and a loading flag
 * that disables every way of sending while a reply is on its way.
 */
module Panchabot {
  import opened Wrappers
  import opened Text

  /* ---------------------------------------------------------------- text */

  /** `needle` occurs in `haystack` starting at position `i`. */
  predicate OccursAt(haystack: string, needle: string, i: int) {
    0 <= i && i + |needle| <= |haystack| && haystack[i..i + |needle|] == needle
  }

  /** `haystack.includes(needle)`. */
  function Contains(haystack: string, needle: string): (r: bool)
    ensures r <==> exists i :: OccursAt(haystack, needle, i)
    decreases |haystack|
  {
    if needle <= haystack then
      assert OccursAt(haystack, needle, 0);
      true
    else if haystack == [] then false
    else
      var r := Contains(haystack[1..], needle);
      ShiftOccurrence(haystack, needle);
      r
  }

  /** Past the first position, `needle` occurs in `haystack` exactly where it occurs in
      the tail, one further along. */
  lemma ShiftOccurrence(haystack: string, needle: string)
    requires haystack != [] && !(needle <= haystack)
    ensures (exists i :: OccursAt(haystack, needle, i)) <==> exists i :: OccursAt(haystack[1..], needle, i)
  {
    if exists i :: OccursAt(haystack[1..], needle, i) {
      var i :| OccursAt(haystack[1..], needle, i);
      assert haystack[i + 1..i + 1 + |needle|] == haystack[1..][i..i + |needle|];
      assert OccursAt(haystack, needle, i + 1);
    }
    assert OccursAt(haystack, needle, 0) ==> needle <= haystack;
    if exists i :: OccursAt(haystack, needle, i) {
      var i :| OccursAt(haystack, needle, i);
      assert haystack[1..][i - 1..i - 1 + |needle|] == haystack[i..i + |needle|];
      assert OccursAt(haystack[1..], needle, i - 1);
    }
  }

  /** A needle with two neighbouring characters that never stand side by side in the
      haystack does not occur in it. */
  lemma MissingPair(haystack: string, needle: string, k: nat)
    requires k + 1 < |needle|
    requires forall i :: 0 <= i < |haystack| - 1 ==> !(haystack[i] == needle[k] && haystack[i + 1] == needle[k + 1])
    ensures !Contains(haystack, needle)
  {
    forall i | 0 <= i && i + |needle| <= |haystack|
      ensures !OccursAt(haystack, needle, i)
    {
      assert !(haystack[i + k] == needle[k] && haystack[i + k + 1] == needle[k + 1]);
      assert haystack[i..i + |needle|][k] == haystack[i + k];
    }
  }

  /** A needle with a character the haystack lacks does not occur in it. */
  lemma CharMissing(haystack: string, needle: string, c: char)
    requires c in needle && c !in haystack
    ensures !Contains(haystack, needle)
  {
  }

  /** Inside an occurrence, the haystack and the needle agree character by character. */
  lemma CharOfOccurrence(haystack: string, needle: string, i: int, j: int)
    requires OccursAt(haystack, needle, i) && i <= j < i + |needle|
    ensures haystack[j] == needle[j - i]
  {
    assert haystack[i..i + |needle|][j - i] == haystack[j];
  }

  predicate EndsInSpace(s: string) {
    s != [] && s[|s| - 1] == ' '
  }

  /** A needle without spaces that occurs in a text split after a space occurs in one of
      the two parts. */
  lemma SplitAfterSpace(a: string, b: string, needle: string)
    requires EndsInSpace(a) && ' ' !in needle
    ensures Contains(a + b, needle) ==> Contains(a, needle) || Contains(b, needle)
  {
    var h := a + b;
    if Contains(h, needle) {
      var i :| OccursAt(h, needle, i);
      if i + |needle| <= |a| {
        assert h[i..i + |needle|] == a[i..i + |needle|];
        assert OccursAt(a, needle, i);
      } else if i >= |a| {
        assert h[i..i + |needle|] == b[i - |a|..i - |a| + |needle|];
        assert OccursAt(b, needle, i - |a|);
      } else {
        CharOfOccurrence(h, needle, i, |a| - 1);
      }
    }
  }

  /** A needle without spaces that occurs in none of three space-separated parts does not
      occur in the whole text. */
  lemma AbsentFromPieces(a: string, b: string, c: string, needle: string)
    requires EndsInSpace(a) && EndsInSpace(b) && ' ' !in needle
    requires !Contains(a, needle) && !Contains(b, needle) && !Contains(c, needle)
    ensures !Contains(a + b + c, needle)
  {
    SplitAfterSpace(b, c, needle);
    assert a + b + c == a + (b + c);
    SplitAfterSpace(a, b + c, needle);
  }

  lemma ToLowerAppend(a: string, b: string)
    ensures ToLower(a + b) == ToLower(a) + ToLower(b)
  {
  }

  lemma ToLowerAppend3(a: string, b: string, c: string, la: string, lb: string, lc: string)
    requires ToLower(a) == la && ToLower(b) == lb && ToLower(c) == lc
    ensures ToLower(a + b + c) == la + lb + lc
  {
    ToLowerAppend(a, b);
    ToLowerAppend(a + b, c);
  }

  /* ---------------------------------------------------------------- routing */

  /** The answers, in the order the page tries them. */
  datatype Topic = TherapyBenefits | Diet | SideEffects | Preparation | DoshaInfo | Recovery | Help

  function Rank(t: Topic): nat {
    match t
    case TherapyBenefits => 0
    case Diet => 1
    case SideEffects => 2
    case Preparation => 3
    case DoshaInfo => 4
    case Recovery => 5
    case Help => 6
  }

  /** Some keyword of `t` occurs in the lowercased query; the help text has none. */
  predicate Mentions(q: string, t: Topic) {
    match t
    case TherapyBenefits => Contains(q, "abhyanga") || Contains(q, "therapy benefit")
    case Diet => Contains(q, "diet") || Contains(q, "food") || Contains(q, "eat")
    case SideEffects => Contains(q, "side effect") || Contains(q, "reaction")
    case Preparation => Contains(q, "prepare") || Contains(q, "preparation")
    case DoshaInfo => Contains(q, "dosha") || Contains(q, "constitution")
    case Recovery => Contains(q, "recovery") || Contains(q, "timeline") || Contains(q, "how long")
    case Help => false
  }

  /** `generateBotResponse`, naming the answer instead of spelling out its text. */
  function Route(userQuery: string): (t: Topic)
    ensures t != Help ==> Mentions(ToLower(userQuery), t)
    ensures forall u :: Rank(u) < Rank(t) ==> !Mentions(ToLower(userQuery), u)
  {
    var q := ToLower(userQuery);
    if Contains(q, "abhyanga") || Contains(q, "therapy benefit") then TherapyBenefits
    else if Contains(q, "diet") || Contains(q, "food") || Contains(q, "eat") then Diet
    else if Contains(q, "side effect") || Contains(q, "reaction") then SideEffects
    else if Contains(q, "prepare") || Contains(q, "preparation") then Preparation
    else if Contains(q, "dosha") || Contains(q, "constitution") then DoshaInfo
    else if Contains(q, "recovery") || Contains(q, "timeline") || Contains(q, "how long") then Recovery
    else Help
  }

  /** The help text comes back exactly when no keyword of any group occurs. */
  lemma HelpExactlyWithoutKeywords(userQuery: string)
    ensures Route(userQuery) == Help <==> forall t :: !Mentions(ToLower(userQuery), t)
  {
    if Route(userQuery) == Help {
      forall u ensures !Mentions(ToLower(userQuery), u) {
        assert u == Help || Rank(u) < Rank(Help);
      }
    } else {
      assert Mentions(ToLower(userQuery), Route(userQuery));
    }
  }

  /** Upper and lower case are answered alike. */
  lemma RouteIgnoresCase(userQuery: string)
    ensures Route(ToLower(userQuery)) == Route(userQuery)
  {
    ToLowerIdempotent(userQuery);
  }

  /** A query that mentions `t` and no group before it gets `t`'s answer. */
  lemma RouteBy(userQuery: string, t: Topic)
    requires Mentions(ToLower(userQuery), t)
    requires forall u :: Rank(u) < Rank(t) ==> !Mentions(ToLower(userQuery), u)
    ensures Route(userQuery) == t
  {
    var r := Route(userQuery);
    assert Rank(r) < Rank(t) || Rank(t) < Rank(r) || r == t;
  }

  lemma TreatmentQueryLowered(a: string, b: string, c: string, la: string, lb: string, lc: string)
    requires a == "side " && b == "effects of " && c == "treatment"
    requires la == "side " && lb == "effects of " && lc == "treatment"
    ensures ToLower(a + b + c) == la + lb + lc
  {
    LowersTo(a, la);
    LowersTo(b, lb);
    LowersTo(c, lc);
    ToLowerAppend3(a, b, c, la, lb, lc);
  }

  lemma TreatmentQueryLacksBenefits(a: string, b: string, c: string)
    requires 'b' !in a && 'b' !in b && 'b' !in c
    requires 'h' !in a && 'h' !in b && 'h' !in c
    ensures !Contains(a + b + c, "abhyanga")
    ensures !Contains(a + b + c, "therapy benefit")
  {
    CharMissing(a + b + c, "abhyanga", 'b');
    CharMissing(a + b + c, "therapy benefit", 'h');
  }

  lemma TreatmentPieceA(a: string)
    requires a == "side "
    ensures EndsInSpace(a)
    ensures 'b' !in a
    ensures 'h' !in a
  {
  }

  lemma TreatmentPieceB(b: string)
    requires b == "effects of "
    ensures EndsInSpace(b)
    ensures 'b' !in b
    ensures 'h' !in b
  {
  }

  lemma TreatmentPieceC(c: string)
    requires c == "treatment"
    ensures 'b' !in c
    ensures 'h' !in c
  {
  }

  lemma TreatmentQueryHits(a: string, b: string, c: string)
    requires a == "side " && b == "effects of " && c == "treatment"
    ensures Mentions(a + b + c, Diet)
  {
    assert OccursAt(a + b + c, "eat", 18);
  }

  lemma TreatmentQueryMentions(la: string, lb: string, lc: string)
    requires la == "side " && lb == "effects of " && lc == "treatment"
    ensures Mentions(la + lb + lc, Diet)
    ensures forall u :: Rank(u) < Rank(Diet) ==> !Mentions(la + lb + lc, u)
  {
    TreatmentPieceA(la);
    TreatmentPieceB(lb);
    TreatmentPieceC(lc);
    TreatmentQueryLacksBenefits(la, lb, lc);
    TreatmentQueryHits(la, lb, lc);
  }

  /** Every group wins over all the groups after it: the diet group's "eat" inside
      "treatment" beats the side-effect group. */
  lemma TreatmentQueryRoutes(query: string, a: string, b: string, c: string, la: string, lb: string, lc: string)
    requires a == "side " && b == "effects of " && c == "treatment"
    requires la == "side " && lb == "effects of " && lc == "treatment"
    requires query == a + b + c
    ensures Route(query) == Diet
  {
    TreatmentQueryLowered(a, b, c, la, lb, lc);
    TreatmentQueryMentions(la, lb, lc);
    RouteBy(query, Diet);
  }

  lemma TreatmentMentionsEat(query: string)
    requires query == "side effects of treatment"
    ensures Route(query) == Diet
  {
    TreatmentQueryRoutes(query, "side ", "effects of ", "treatment", "side ", "effects of ", "treatment");
  }

  /* ---------------------------------------------------------------- word starts */

  predicate IsLetter(c: char) {
    'a' <= c <= 'z' || 'A' <= c <= 'Z'
  }

  /** `needle` occurs at `i` where a word begins: at the start or after a non-letter. */
  predicate WordAt(haystack: string, needle: string, i: int) {
    OccursAt(haystack, needle, i) && (i == 0 || !IsLetter(haystack[i - 1]))
  }

  /** `needle` occurs in `haystack` at the start of a word. */
  predicate ContainsWord(haystack: string, needle: string) {
    exists i :: 0 <= i <= |haystack| - |needle| && WordAt(haystack, needle, i)
  }

  lemma WordIsOccurrence(haystack: string, needle: string)
    ensures ContainsWord(haystack, needle) ==> Contains(haystack, needle)
  {
  }

  /** In a text made only of letters, a needle occurs at a word start only as its prefix. */
  lemma NoWordInsideWord(c: string, needle: string)
    requires forall j :: 0 <= j < |c| ==> IsLetter(c[j])
    requires !(needle <= c)
    ensures !ContainsWord(c, needle)
  {
    forall i | 0 <= i <= |c| - |needle|
      ensures !WordAt(c, needle, i)
    {
      if i == 0 {
        assert !(c[0..|needle|] == needle);
      } else {
        assert IsLetter(c[i - 1]);
      }
    }
  }

  /** A needle without spaces that starts a word of a text cut after a space starts a word
      of one of the two parts. */
  lemma WordSplitAfterSpace(a: string, b: string, needle: string)
    requires EndsInSpace(a) && ' ' !in needle
    ensures ContainsWord(a + b, needle) ==> ContainsWord(a, needle) || ContainsWord(b, needle)
  {
    var h := a + b;
    if ContainsWord(h, needle) {
      var i :| 0 <= i <= |h| - |needle| && WordAt(h, needle, i);
      if i + |needle| <= |a| {
        assert h[i..i + |needle|] == a[i..i + |needle|];
        assert WordAt(a, needle, i);
      } else if i >= |a| {
        assert h[i..i + |needle|] == b[i - |a|..i - |a| + |needle|];
        assert i - |a| > 0 ==> h[i - 1] == b[i - |a| - 1];
        assert WordAt(b, needle, i - |a|);
      } else {
        CharOfOccurrence(h, needle, i, |a| - 1);
      }
    }
  }

  lemma WordAbsentFromPieces(a: string, b: string, c: string, needle: string)
    requires EndsInSpace(a) && EndsInSpace(b) && ' ' !in needle
    requires !ContainsWord(a, needle) && !ContainsWord(b, needle) && !ContainsWord(c, needle)
    ensures !ContainsWord(a + b + c, needle)
  {
    WordSplitAfterSpace(b, c, needle);
    assert a + b + c == a + (b + c);
    WordSplitAfterSpace(a, b + c, needle);
  }

  /** Some keyword of `t` starts a word of the lowercased query. */
  predicate WordMentions(q: string, t: Topic) {
    match t
    case TherapyBenefits => ContainsWord(q, "abhyanga") || ContainsWord(q, "therapy benefit")
    case Diet => ContainsWord(q, "diet") || ContainsWord(q, "food") || ContainsWord(q, "eat")
    case SideEffects => ContainsWord(q, "side effect") || ContainsWord(q, "reaction")
    case Preparation => ContainsWord(q, "prepare") || ContainsWord(q, "preparation")
    case DoshaInfo => ContainsWord(q, "dosha") || ContainsWord(q, "constitution")
    case Recovery => ContainsWord(q, "recovery") || ContainsWord(q, "timeline") || ContainsWord(q, "how long")
    case Help => false
  }

  lemma WordMentionsMentions(q: string, t: Topic)
    ensures WordMentions(q, t) ==> Mentions(q, t)
  {
    match t
    case TherapyBenefits =>
      WordIsOccurrence(q, "abhyanga");
      WordIsOccurrence(q, "therapy benefit");
    case Diet =>
      WordIsOccurrence(q, "diet");
      WordIsOccurrence(q, "food");
      WordIsOccurrence(q, "eat");
    case SideEffects =>
      WordIsOccurrence(q, "side effect");
      WordIsOccurrence(q, "reaction");
    case Preparation =>
      WordIsOccurrence(q, "prepare");
      WordIsOccurrence(q, "preparation");
    case DoshaInfo =>
      WordIsOccurrence(q, "dosha");
      WordIsOccurrence(q, "constitution");
    case Recovery =>
      WordIsOccurrence(q, "recovery");
      WordIsOccurrence(q, "timeline");
      WordIsOccurrence(q, "how long");
    case Help =>
  }

  /** `generateBotResponse` with each keyword matched only where a word begins, so that a
      keyword hidden inside a longer word ("eat" in "treatment") no longer picks an answer. */
  function RouteWords(userQuery: string): (t: Topic)
    ensures t != Help ==> WordMentions(ToLower(userQuery), t)
    ensures forall u :: Rank(u) < Rank(t) ==> !WordMentions(ToLower(userQuery), u)
  {
    var q := ToLower(userQuery);
    if ContainsWord(q, "abhyanga") || ContainsWord(q, "therapy benefit") then TherapyBenefits
    else if ContainsWord(q, "diet") || ContainsWord(q, "food") || ContainsWord(q, "eat") then Diet
    else if ContainsWord(q, "side effect") || ContainsWord(q, "reaction") then SideEffects
    else if ContainsWord(q, "prepare") || ContainsWord(q, "preparation") then Preparation
    else if ContainsWord(q, "dosha") || ContainsWord(q, "constitution") then DoshaInfo
    else if ContainsWord(q, "recovery") || ContainsWord(q, "timeline") || ContainsWord(q, "how long") then Recovery
    else Help
  }

  lemma RouteWordsBy(userQuery: string, t: Topic)
    requires WordMentions(ToLower(userQuery), t)
    requires forall u :: Rank(u) < Rank(t) ==> !WordMentions(ToLower(userQuery), u)
    ensures RouteWords(userQuery) == t
  {
    var r := RouteWords(userQuery);
    assert Rank(r) < Rank(t) || Rank(t) < Rank(r) || r == t;
  }

  /** A query with a keyword of `t` at a word start and no keyword of an earlier group
      anywhere gets `t`'s answer from the word-start routing. */
  lemma RouteWordsByMentions(userQuery: string, t: Topic)
    requires WordMentions(ToLower(userQuery), t)
    requires forall u :: Rank(u) < Rank(t) ==> !Mentions(ToLower(userQuery), u)
    ensures RouteWords(userQuery) == t
  {
    forall u | Rank(u) < Rank(t)
      ensures !WordMentions(ToLower(userQuery), u)
    {
      WordMentionsMentions(ToLower(userQuery), u);
    }
    RouteWordsBy(userQuery, t);
  }

  /** Where every keyword that occurs starts a word, both routings give the same answer. */
  lemma RouteWordsAgrees(userQuery: string)
    requires forall t :: Mentions(ToLower(userQuery), t) ==> WordMentions(ToLower(userQuery), t)
    ensures RouteWords(userQuery) == Route(userQuery)
  {
    var q := ToLower(userQuery);
    forall u ensures WordMentions(q, u) ==> Mentions(q, u) {
      WordMentionsMentions(q, u);
    }
    var r := Route(userQuery);
    if r == Help {
      HelpExactlyWithoutKeywords(userQuery);
      var w := RouteWords(userQuery);
      assert w == Help || Rank(w) < Rank(Help);
    } else {
      RouteWordsBy(userQuery, r);
    }
  }

  lemma TreatmentWordsLackDiet(a: string, b: string, c: string)
    requires a == "side " && b == "effects of " && c == "treatment"
    ensures !ContainsWord(a + b + c, "diet")
    ensures !ContainsWord(a + b + c, "food")
  {
    MissingPair(a, "diet", 0);
    CharMissing(b, "diet", 'd');
    CharMissing(c, "diet", 'd');
    AbsentFromPieces(a, b, c, "diet");
    WordIsOccurrence(a + b + c, "diet");
    CharMissing(a, "food", 'f');
    MissingPair(b, "food", 0);
    CharMissing(c, "food", 'f');
    AbsentFromPieces(a, b, c, "food");
    WordIsOccurrence(a + b + c, "food");
  }

  lemma TreatmentWordsLackEat(a: string, b: string, c: string)
    requires a == "side " && b == "effects of " && c == "treatment"
    ensures !ContainsWord(a + b + c, "eat")
  {
    CharMissing(a, "eat", 'a');
    WordIsOccurrence(a, "eat");
    CharMissing(b, "eat", 'a');
    WordIsOccurrence(b, "eat");
    NoWordInsideWord(c, "eat");
    WordAbsentFromPieces(a, b, c, "eat");
  }

  lemma TreatmentWordsLackBenefits(a: string, b: string, c: string)
    requires a == "side " && b == "effects of " && c == "treatment"
    ensures !WordMentions(a + b + c, TherapyBenefits)
  {
    TreatmentPieceA(a);
    TreatmentPieceB(b);
    TreatmentPieceC(c);
    TreatmentQueryLacksBenefits(a, b, c);
    WordMentionsMentions(a + b + c, TherapyBenefits);
  }

  lemma TreatmentWordsHit(a: string, b: string, c: string)
    requires a == "side " && b == "effects of " && c == "treatment"
    ensures WordMentions(a + b + c, SideEffects)
  {
    assert WordAt(a + b + c, "side effect", 0);
  }

  lemma TreatmentWordsMentions(la: string, lb: string, lc: string)
    requires la == "side " && lb == "effects of " && lc == "treatment"
    ensures WordMentions(la + lb + lc, SideEffects)
    ensures forall u :: Rank(u) < Rank(SideEffects) ==> !WordMentions(la + lb + lc, u)
  {
    TreatmentWordsLackBenefits(la, lb, lc);
    TreatmentWordsLackDiet(la, lb, lc);
    TreatmentWordsLackEat(la, lb, lc);
    TreatmentWordsHit(la, lb, lc);
  }

  lemma TreatmentQueryWordRoutesBy(query: string, a: string, b: string, c: string, la: string, lb: string, lc: string)
    requires a == "side " && b == "effects of " && c == "treatment"
    requires la == "side " && lb == "effects of " && lc == "treatment"
    requires query == a + b + c
    ensures RouteWords(query) == SideEffects
  {
    TreatmentQueryLowered(a, b, c, la, lb, lc);
    TreatmentWordsMentions(la, lb, lc);
    RouteWordsBy(query, SideEffects);
  }

  /** With keywords matched at word starts, the side-effect question gets the side-effect
      answer: "eat" inside "treatment" no longer counts. */
  lemma TreatmentQueryWordRoutes(query: string)
    requires query == "side effects of treatment"
    ensures RouteWords(query) == SideEffects
  {
    TreatmentQueryWordRoutesBy(query, "side ", "effects of ", "treatment", "side ", "effects of ", "treatment");
  }

  /* ---------------------------------------------------------------- quick actions */

  datatype QuickAction = QuickAction(caption: string, query: string, answer: Topic)

  /** The six buttons under the chat, each with the answer its label promises. The questions
      are written in three pieces, cut after a space, which is how the proofs below take
      them apart. */
  const QuickActions: seq<QuickAction> := [
    QuickAction("Therapy Benefits", "What are " + "the benefits of " + "Abhyanga therapy?", TherapyBenefits),
    QuickAction("Diet Recommendations", "What should I eat " + "during Panchakarma " + "treatment?", Diet),
    QuickAction("Side Effects", "What are common " + "side effects " + "of Panchakarma?", SideEffects),
    QuickAction("Preparation Tips", "How should I " + "prepare for my next " + "therapy session?", Preparation),
    QuickAction("Dosha Analysis", "Can you explain " + "my dosha " + "constitution?", DoshaInfo),
    QuickAction("Recovery Timeline", "How long " + "does recovery " + "typically take?", Recovery)
  ]

  lemma BenefitsQueryLowered(a: string, b: string, c: string, la: string, lb: string, lc: string)
    requires a == "What are " && b == "the benefits of " && c == "Abhyanga therapy?"
    requires la == "what are " && lb == "the benefits of " && lc == "abhyanga therapy?"
    ensures ToLower(a + b + c) == la + lb + lc
  {
    LowersTo(a, la);
    LowersTo(b, lb);
    LowersTo(c, lc);
    ToLowerAppend3(a, b, c, la, lb, lc);
  }

  lemma BenefitsPieceA(a: string)
    requires a == "what are "
    ensures EndsInSpace(a)
  {
  }

  lemma BenefitsPieceB(b: string)
    requires b == "the benefits of "
    ensures EndsInSpace(b)
  {
  }

  lemma BenefitsQueryHits(a: string, b: string, c: string)
    requires a == "what are " && b == "the benefits of " && c == "abhyanga therapy?"
    ensures Mentions(a + b + c, TherapyBenefits)
    ensures WordMentions(a + b + c, TherapyBenefits)
  {
    assert WordAt(a + b + c, "abhyanga", 25);
  }

  lemma BenefitsQueryMentions(la: string, lb: string, lc: string)
    requires la == "what are " && lb == "the benefits of " && lc == "abhyanga therapy?"
    ensures Mentions(la + lb + lc, TherapyBenefits)
    ensures forall u :: Rank(u) < Rank(TherapyBenefits) ==> !Mentions(la + lb + lc, u)
  {
    BenefitsPieceA(la);
    BenefitsPieceB(lb);

    BenefitsQueryHits(la, lb, lc);
  }

  lemma BenefitsQueryRoutes(query: string, a: string, b: string, c: string, la: string, lb: string, lc: string)
    requires a == "What are " && b == "the benefits of " && c == "Abhyanga therapy?"
    requires la == "what are " && lb == "the benefits of " && lc == "abhyanga therapy?"
    requires query == a + b + c
    ensures Route(query) == TherapyBenefits
    ensures RouteWords(query) == TherapyBenefits
  {
    BenefitsQueryLowered(a, b, c, la, lb, lc);
    BenefitsQueryMentions(la, lb, lc);
    BenefitsQueryHits(la, lb, lc);
    RouteBy(query, TherapyBenefits);
    RouteWordsByMentions(query, TherapyBenefits);
  }

  lemma DietQueryLowered(a: string, b: string, c: string, la: string, lb: string, lc: string)
    requires a == "What should I eat " && b == "during Panchakarma " && c == "treatment?"
    requires la == "what should i eat " && lb == "during panchakarma " && lc == "treatment?"
    ensures ToLower(a + b + c) == la + lb + lc
  {
    LowersTo(a, la);
    LowersTo(b, lb);
    LowersTo(c, lc);
    ToLowerAppend3(a, b, c, la, lb, lc);
  }

  lemma DietQueryLacksAbhyanga(a: string, b: string, c: string)
    requires 'b' !in a && 'b' !in b && 'b' !in c
    ensures !Contains(a + b + c, "abhyanga")
  {
    CharMissing(a + b + c, "abhyanga", 'b');
  }

  lemma DietQueryLacksTherapyBenefit(a: string, b: string, c: string)
    requires 'y' !in a && 'y' !in b && 'y' !in c
    ensures !Contains(a + b + c, "therapy benefit")
  {
    CharMissing(a + b + c, "therapy benefit", 'y');
  }

  lemma DietPieceA(a: string)
    requires a == "what should i eat "
    ensures EndsInSpace(a)
    ensures 'b' !in a
    ensures 'y' !in a
  {
  }

  lemma DietPieceB(b: string)
    requires b == "during panchakarma "
    ensures EndsInSpace(b)
    ensures 'b' !in b
    ensures 'y' !in b
  {
  }

  lemma DietPieceC(c: string)
    requires c == "treatment?"
    ensures 'b' !in c
    ensures 'y' !in c
  {
  }

  lemma DietQueryHits(a: string, b: string, c: string)
    requires a == "what should i eat " && b == "during panchakarma " && c == "treatment?"
    ensures Mentions(a + b + c, Diet)
    ensures WordMentions(a + b + c, Diet)
  {
    assert WordAt(a + b + c, "eat", 14);
  }

  lemma DietQueryMentions(la: string, lb: string, lc: string)
    requires la == "what should i eat " && lb == "during panchakarma " && lc == "treatment?"
    ensures Mentions(la + lb + lc, Diet)
    ensures forall u :: Rank(u) < Rank(Diet) ==> !Mentions(la + lb + lc, u)
  {
    DietPieceA(la);
    DietPieceB(lb);
    DietPieceC(lc);
    DietQueryLacksAbhyanga(la, lb, lc);
    DietQueryLacksTherapyBenefit(la, lb, lc);
    DietQueryHits(la, lb, lc);
  }

  lemma DietQueryRoutes(query: string, a: string, b: string, c: string, la: string, lb: string, lc: string)
    requires a == "What should I eat " && b == "during Panchakarma " && c == "treatment?"
    requires la == "what should i eat " && lb == "during panchakarma " && lc == "treatment?"
    requires query == a + b + c
    ensures Route(query) == Diet
    ensures RouteWords(query) == Diet
  {
    DietQueryLowered(a, b, c, la, lb, lc);
    DietQueryMentions(la, lb, lc);
    DietQueryHits(la, lb, lc);
    RouteBy(query, Diet);
    RouteWordsByMentions(query, Diet);
  }

  lemma SideEffectsQueryLowered(a: string, b: string, c: string, la: string, lb: string, lc: string)
    requires a == "What are common " && b == "side effects " && c == "of Panchakarma?"
    requires la == "what are common " && lb == "side effects " && lc == "of panchakarma?"
    ensures ToLower(a + b + c) == la + lb + lc
  {
    LowersTo(a, la);
    LowersTo(b, lb);
    LowersTo(c, lc);
    ToLowerAppend3(a, b, c, la, lb, lc);
  }

  lemma SideEffectsQueryLacksAbhyanga(a: string, b: string, c: string)
    requires 'b' !in a && 'b' !in b && 'b' !in c
    ensures !Contains(a + b + c, "abhyanga")
  {
    CharMissing(a + b + c, "abhyanga", 'b');
  }

  lemma SideEffectsQueryLacksTherapyBenefit(a: string, b: string, c: string)
    requires 'y' !in a && 'y' !in b && 'y' !in c
    ensures !Contains(a + b + c, "therapy benefit")
  {
    CharMissing(a + b + c, "therapy benefit", 'y');
  }

  lemma SideEffectsQueryLacksDiet(a: string, b: string, c: string)
    requires EndsInSpace(a) && EndsInSpace(b) && 'd' !in a && (forall i :: 0 <= i < |b| - 1 ==> !(b[i] == 'd' && b[i + 1] == 'i')) && 'd' !in c
    ensures !Contains(a + b + c, "diet")
  {
    CharMissing(a, "diet", 'd');
    MissingPair(b, "diet", 0);
    CharMissing(c, "diet", 'd');
    AbsentFromPieces(a, b, c, "diet");
  }

  lemma SideEffectsQueryLacksFood(a: string, b: string, c: string)
    requires EndsInSpace(a) && EndsInSpace(b) && 'f' !in a && 'o' !in b && 'd' !in c
    ensures !Contains(a + b + c, "food")
  {
    CharMissing(a, "food", 'f');
    CharMissing(b, "food", 'o');
    CharMissing(c, "food", 'd');
    AbsentFromPieces(a, b, c, "food");
  }

  lemma SideEffectsQueryLacksEat(a: string, b: string, c: string)
    requires EndsInSpace(a) && EndsInSpace(b) && (forall i :: 0 <= i < |a| - 1 ==> !(a[i] == 'e' && a[i + 1] == 'a')) && 'a' !in b && 'e' !in c
    ensures !Contains(a + b + c, "eat")
  {
    MissingPair(a, "eat", 0);
    CharMissing(b, "eat", 'a');
    CharMissing(c, "eat", 'e');
    AbsentFromPieces(a, b, c, "eat");
  }

  lemma SideEffectsPieceA(a: string)
    requires a == "what are common "
    ensures EndsInSpace(a)
    ensures 'b' !in a
    ensures 'y' !in a
    ensures 'd' !in a
    ensures 'f' !in a
    ensures forall i :: 0 <= i < |a| - 1 ==> !(a[i] == 'e' && a[i + 1] == 'a')
  {
  }

  lemma SideEffectsPieceB(b: string)
    requires b == "side effects "
    ensures EndsInSpace(b)
    ensures 'b' !in b
    ensures 'y' !in b
    ensures forall i :: 0 <= i < |b| - 1 ==> !(b[i] == 'd' && b[i + 1] == 'i')
    ensures 'o' !in b
    ensures 'a' !in b
  {
  }

  lemma SideEffectsPieceC(c: string)
    requires c == "of panchakarma?"
    ensures 'b' !in c
    ensures 'y' !in c
    ensures 'd' !in c
    ensures 'e' !in c
  {
  }

  lemma SideEffectsQueryHits(a: string, b: string, c: string)
    requires a == "what are common " && b == "side effects " && c == "of panchakarma?"
    ensures Mentions(a + b + c, SideEffects)
    ensures WordMentions(a + b + c, SideEffects)
  {
    assert WordAt(a + b + c, "side effect", 16);
  }

  lemma SideEffectsQueryMentions(la: string, lb: string, lc: string)
    requires la == "what are common " && lb == "side effects " && lc == "of panchakarma?"
    ensures Mentions(la + lb + lc, SideEffects)
    ensures forall u :: Rank(u) < Rank(SideEffects) ==> !Mentions(la + lb + lc, u)
  {
    SideEffectsPieceA(la);
    SideEffectsPieceB(lb);
    SideEffectsPieceC(lc);
    SideEffectsQueryLacksEarlier(la, lb, lc);
    SideEffectsQueryHits(la, lb, lc);
  }

  lemma SideEffectsQueryLacksEarlier(a: string, b: string, c: string)
    requires EndsInSpace(a) && EndsInSpace(b)
    requires 'b' !in a && 'b' !in b && 'b' !in c && 'y' !in a && 'y' !in b && 'y' !in c
    requires 'd' !in a && 'd' !in c && 'f' !in a && 'o' !in b && 'a' !in b && 'e' !in c
    requires forall i :: 0 <= i < |a| - 1 ==> !(a[i] == 'e' && a[i + 1] == 'a')
    requires forall i :: 0 <= i < |b| - 1 ==> !(b[i] == 'd' && b[i + 1] == 'i')
    ensures forall u :: Rank(u) < Rank(SideEffects) ==> !Mentions(a + b + c, u)
  {
    SideEffectsQueryLacksAbhyanga(a, b, c);
    SideEffectsQueryLacksTherapyBenefit(a, b, c);
    SideEffectsQueryLacksDiet(a, b, c);
    SideEffectsQueryLacksFood(a, b, c);
    SideEffectsQueryLacksEat(a, b, c);
    forall u | Rank(u) < Rank(SideEffects)
      ensures !Mentions(a + b + c, u)
    {
      assert u == TherapyBenefits || u == Diet;
    }
  }

  lemma SideEffectsQueryRoutes(query: string, a: string, b: string, c: string, la: string, lb: string, lc: string)
    requires a == "What are common " && b == "side effects " && c == "of Panchakarma?"
    requires la == "what are common " && lb == "side effects " && lc == "of panchakarma?"
    requires query == a + b + c
    ensures Route(query) == SideEffects
    ensures RouteWords(query) == SideEffects
  {
    SideEffectsQueryLowered(a, b, c, la, lb, lc);
    SideEffectsQueryMentions(la, lb, lc);
    SideEffectsQueryHits(la, lb, lc);
    RouteBy(query, SideEffects);
    RouteWordsByMentions(query, SideEffects);
  }

  lemma PreparationQueryLowered(a: string, b: string, c: string, la: string, lb: string, lc: string)
    requires a == "How should I " && b == "prepare for my next " && c == "therapy session?"
    requires la == "how should i " && lb == "prepare for my next " && lc == "therapy session?"
    ensures ToLower(a + b + c) == la + lb + lc
  {
    LowersTo(a, la);
    LowersTo(b, lb);
    LowersTo(c, lc);
    ToLowerAppend3(a, b, c, la, lb, lc);
  }

  lemma PreparationQueryLacksAbhyanga(a: string, b: string, c: string)
    requires 'b' !in a && 'b' !in b && 'b' !in c
    ensures !Contains(a + b + c, "abhyanga")
  {
    CharMissing(a + b + c, "abhyanga", 'b');
  }

  lemma PreparationQueryLacksTherapyBenefit(a: string, b: string, c: string)
    requires 'b' !in a && 'b' !in b && 'b' !in c
    ensures !Contains(a + b + c, "therapy benefit")
  {
    CharMissing(a + b + c, "therapy benefit", 'b');
  }

  lemma PreparationQueryLacksDiet(a: string, b: string, c: string)
    requires EndsInSpace(a) && EndsInSpace(b) && 'e' !in a && 'd' !in b && 'd' !in c
    ensures !Contains(a + b + c, "diet")
  {
    CharMissing(a, "diet", 'e');
    CharMissing(b, "diet", 'd');
    CharMissing(c, "diet", 'd');
    AbsentFromPieces(a, b, c, "diet");
  }

  lemma PreparationQueryLacksFood(a: string, b: string, c: string)
    requires EndsInSpace(a) && EndsInSpace(b) && 'f' !in a && 'd' !in b && 'f' !in c
    ensures !Contains(a + b + c, "food")
  {
    CharMissing(a, "food", 'f');
    CharMissing(b, "food", 'd');
    CharMissing(c, "food", 'f');
    AbsentFromPieces(a, b, c, "food");
  }

  lemma PreparationQueryLacksEat(a: string, b: string, c: string)
    requires EndsInSpace(a) && EndsInSpace(b) && 'e' !in a && (forall i :: 0 <= i < |b| - 1 ==> !(b[i] == 'e' && b[i + 1] == 'a')) && (forall i :: 0 <= i < |c| - 1 ==> !(c[i] == 'e' && c[i + 1] == 'a'))
    ensures !Contains(a + b + c, "eat")
  {
    CharMissing(a, "eat", 'e');
    MissingPair(b, "eat", 0);
    MissingPair(c, "eat", 0);
    AbsentFromPieces(a, b, c, "eat");
  }

  lemma PreparationQueryLacksSideEffect(a: string, b: string, c: string)
    requires 'c' !in a && 'c' !in b && 'c' !in c
    ensures !Contains(a + b + c, "side effect")
  {
    CharMissing(a + b + c, "side effect", 'c');
  }

  lemma PreparationQueryLacksReaction(a: string, b: string, c: string)
    requires 'c' !in a && 'c' !in b && 'c' !in c
    ensures !Contains(a + b + c, "reaction")
  {
    CharMissing(a + b + c, "reaction", 'c');
  }

  lemma PreparationPieceA(a: string)
    requires a == "how should i "
    ensures EndsInSpace(a)
    ensures 'b' !in a
    ensures 'e' !in a
    ensures 'f' !in a
    ensures 'c' !in a
  {
  }

  lemma PreparationPieceB(b: string)
    requires b == "prepare for my next "
    ensures EndsInSpace(b)
    ensures 'b' !in b
    ensures 'd' !in b
    ensures forall i :: 0 <= i < |b| - 1 ==> !(b[i] == 'e' && b[i + 1] == 'a')
    ensures 'c' !in b
  {
  }

  lemma PreparationPieceC(c: string)
    requires c == "therapy session?"
    ensures 'b' !in c
    ensures 'd' !in c
    ensures 'f' !in c
    ensures forall i :: 0 <= i < |c| - 1 ==> !(c[i] == 'e' && c[i + 1] == 'a')
    ensures 'c' !in c
  {
  }

  lemma PreparationQueryHits(a: string, b: string, c: string)
    requires a == "how should i " && b == "prepare for my next " && c == "therapy session?"
    ensures Mentions(a + b + c, Preparation)
    ensures WordMentions(a + b + c, Preparation)
  {
    assert WordAt(a + b + c, "prepare", 13);
  }

  lemma PreparationQueryMentions(la: string, lb: string, lc: string)
    requires la == "how should i " && lb == "prepare for my next " && lc == "therapy session?"
    ensures Mentions(la + lb + lc, Preparation)
    ensures forall u :: Rank(u) < Rank(Preparation) ==> !Mentions(la + lb + lc, u)
  {
    PreparationPieceA(la);
    PreparationPieceB(lb);
    PreparationPieceC(lc);
    PreparationQueryLacksAbhyanga(la, lb, lc);
    PreparationQueryLacksTherapyBenefit(la, lb, lc);
    PreparationQueryLacksDiet(la, lb, lc);
    PreparationQueryLacksFood(la, lb, lc);
    PreparationQueryLacksEat(la, lb, lc);
    PreparationQueryLacksSideEffect(la, lb, lc);
    PreparationQueryLacksReaction(la, lb, lc);
    PreparationQueryHits(la, lb, lc);
  }

  lemma PreparationQueryRoutes(query: string, a: string, b: string, c: string, la: string, lb: string, lc: string)
    requires a == "How should I " && b == "prepare for my next " && c == "therapy session?"
    requires la == "how should i " && lb == "prepare for my next " && lc == "therapy session?"
    requires query == a + b + c
    ensures Route(query) == Preparation
    ensures RouteWords(query) == Preparation
  {
    PreparationQueryLowered(a, b, c, la, lb, lc);
    PreparationQueryMentions(la, lb, lc);
    PreparationQueryHits(la, lb, lc);
    RouteBy(query, Preparation);
    RouteWordsByMentions(query, Preparation);
  }

  lemma DoshaQueryLowered(a: string, b: string, c: string, la: string, lb: string, lc: string)
    requires a == "Can you explain " && b == "my dosha " && c == "constitution?"
    requires la == "can you explain " && lb == "my dosha " && lc == "constitution?"
    ensures ToLower(a + b + c) == la + lb + lc
  {
    LowersTo(a, la);
    LowersTo(b, lb);
    LowersTo(c, lc);
    ToLowerAppend3(a, b, c, la, lb, lc);
  }

  lemma DoshaQueryLacksAbhyanga(a: string, b: string, c: string)
    requires 'b' !in a && 'b' !in b && 'b' !in c
    ensures !Contains(a + b + c, "abhyanga")
  {
    CharMissing(a + b + c, "abhyanga", 'b');
  }

  lemma DoshaQueryLacksTherapyBenefit(a: string, b: string, c: string)
    requires 'r' !in a && 'r' !in b && 'r' !in c
    ensures !Contains(a + b + c, "therapy benefit")
  {
    CharMissing(a + b + c, "therapy benefit", 'r');
  }

  lemma DoshaQueryLacksDiet(a: string, b: string, c: string)
    requires EndsInSpace(a) && EndsInSpace(b) && 'd' !in a && 'i' !in b && 'd' !in c
    ensures !Contains(a + b + c, "diet")
  {
    CharMissing(a, "diet", 'd');
    CharMissing(b, "diet", 'i');
    CharMissing(c, "diet", 'd');
    AbsentFromPieces(a, b, c, "diet");
  }

  lemma DoshaQueryLacksFood(a: string, b: string, c: string)
    requires 'f' !in a && 'f' !in b && 'f' !in c
    ensures !Contains(a + b + c, "food")
  {
    CharMissing(a + b + c, "food", 'f');
  }

  lemma DoshaQueryLacksEat(a: string, b: string, c: string)
    requires EndsInSpace(a) && EndsInSpace(b) && 't' !in a && 'e' !in b && 'e' !in c
    ensures !Contains(a + b + c, "eat")
  {
    CharMissing(a, "eat", 't');
    CharMissing(b, "eat", 'e');
    CharMissing(c, "eat", 'e');
    AbsentFromPieces(a, b, c, "eat");
  }

  lemma DoshaQueryLacksSideEffect(a: string, b: string, c: string)
    requires 'f' !in a && 'f' !in b && 'f' !in c
    ensures !Contains(a + b + c, "side effect")
  {
    CharMissing(a + b + c, "side effect", 'f');
  }

  lemma DoshaQueryLacksReaction(a: string, b: string, c: string)
    requires 'r' !in a && 'r' !in b && 'r' !in c
    ensures !Contains(a + b + c, "reaction")
  {
    CharMissing(a + b + c, "reaction", 'r');
  }

  lemma DoshaQueryLacksPrepare(a: string, b: string, c: string)
    requires 'r' !in a && 'r' !in b && 'r' !in c
    ensures !Contains(a + b + c, "prepare")
  {
    CharMissing(a + b + c, "prepare", 'r');
  }

  lemma DoshaQueryLacksPreparation(a: string, b: string, c: string)
    requires 'r' !in a && 'r' !in b && 'r' !in c
    ensures !Contains(a + b + c, "preparation")
  {
    CharMissing(a + b + c, "preparation", 'r');
  }

  lemma DoshaPieceA(a: string)
    requires a == "can you explain "
    ensures EndsInSpace(a)
    ensures 'b' !in a
    ensures 'r' !in a
    ensures 'd' !in a
    ensures 'f' !in a
    ensures 't' !in a
  {
  }

  lemma DoshaPieceB(b: string)
    requires b == "my dosha "
    ensures EndsInSpace(b)
    ensures 'b' !in b
    ensures 'r' !in b
    ensures 'i' !in b
    ensures 'f' !in b
    ensures 'e' !in b
  {
  }

  lemma DoshaPieceC(c: string)
    requires c == "constitution?"
    ensures 'b' !in c
    ensures 'r' !in c
    ensures 'd' !in c
    ensures 'f' !in c
    ensures 'e' !in c
  {
  }

  lemma DoshaQueryHits(a: string, b: string, c: string)
    requires a == "can you explain " && b == "my dosha " && c == "constitution?"
    ensures Mentions(a + b + c, DoshaInfo)
    ensures WordMentions(a + b + c, DoshaInfo)
  {
    assert WordAt(a + b + c, "dosha", 19);
  }

  lemma DoshaQueryMentions(la: string, lb: string, lc: string)
    requires la == "can you explain " && lb == "my dosha " && lc == "constitution?"
    ensures Mentions(la + lb + lc, DoshaInfo)
    ensures forall u :: Rank(u) < Rank(DoshaInfo) ==> !Mentions(la + lb + lc, u)
  {
    DoshaPieceA(la);
    DoshaPieceB(lb);
    DoshaPieceC(lc);
    DoshaQueryLacksAbhyanga(la, lb, lc);
    DoshaQueryLacksTherapyBenefit(la, lb, lc);
    DoshaQueryLacksDiet(la, lb, lc);
    DoshaQueryLacksFood(la, lb, lc);
    DoshaQueryLacksEat(la, lb, lc);
    DoshaQueryLacksSideEffect(la, lb, lc);
    DoshaQueryLacksReaction(la, lb, lc);
    DoshaQueryLacksPrepare(la, lb, lc);
    DoshaQueryLacksPreparation(la, lb, lc);
    DoshaQueryHits(la, lb, lc);
  }

  lemma DoshaQueryRoutes(query: string, a: string, b: string, c: string, la: string, lb: string, lc: string)
    requires a == "Can you explain " && b == "my dosha " && c == "constitution?"
    requires la == "can you explain " && lb == "my dosha " && lc == "constitution?"
    requires query == a + b + c
    ensures Route(query) == DoshaInfo
    ensures RouteWords(query) == DoshaInfo
  {
    DoshaQueryLowered(a, b, c, la, lb, lc);
    DoshaQueryMentions(la, lb, lc);
    DoshaQueryHits(la, lb, lc);
    RouteBy(query, DoshaInfo);
    RouteWordsByMentions(query, DoshaInfo);
  }

  lemma RecoveryQueryLowered(a: string, b: string, c: string, la: string, lb: string, lc: string)
    requires a == "How long " && b == "does recovery " && c == "typically take?"
    requires la == "how long " && lb == "does recovery " && lc == "typically take?"
    ensures ToLower(a + b + c) == la + lb + lc
  {
    LowersTo(a, la);
    LowersTo(b, lb);
    LowersTo(c, lc);
    ToLowerAppend3(a, b, c, la, lb, lc);
  }

  lemma RecoveryQueryLacksAbhyanga(a: string, b: string, c: string)
    requires 'b' !in a && 'b' !in b && 'b' !in c
    ensures !Contains(a + b + c, "abhyanga")
  {
    CharMissing(a + b + c, "abhyanga", 'b');
  }

  lemma RecoveryQueryLacksTherapyBenefit(a: string, b: string, c: string)
    requires 'b' !in a && 'b' !in b && 'b' !in c
    ensures !Contains(a + b + c, "therapy benefit")
  {
    CharMissing(a + b + c, "therapy benefit", 'b');
  }

  lemma RecoveryQueryLacksDiet(a: string, b: string, c: string)
    requires EndsInSpace(a) && EndsInSpace(b) && 'd' !in a && 'i' !in b && 'd' !in c
    ensures !Contains(a + b + c, "diet")
  {
    CharMissing(a, "diet", 'd');
    CharMissing(b, "diet", 'i');
    CharMissing(c, "diet", 'd');
    AbsentFromPieces(a, b, c, "diet");
  }

  lemma RecoveryQueryLacksFood(a: string, b: string, c: string)
    requires 'f' !in a && 'f' !in b && 'f' !in c
    ensures !Contains(a + b + c, "food")
  {
    CharMissing(a + b + c, "food", 'f');
  }

  lemma RecoveryQueryLacksEat(a: string, b: string, c: string)
    requires EndsInSpace(a) && EndsInSpace(b) && 'e' !in a && 'a' !in b && (forall i :: 0 <= i < |c| - 1 ==> !(c[i] == 'e' && c[i + 1] == 'a'))
    ensures !Contains(a + b + c, "eat")
  {
    CharMissing(a, "eat", 'e');
    CharMissing(b, "eat", 'a');
    MissingPair(c, "eat", 0);
    AbsentFromPieces(a, b, c, "eat");
  }

  lemma RecoveryQueryLacksSideEffect(a: string, b: string, c: string)
    requires 'f' !in a && 'f' !in b && 'f' !in c
    ensures !Contains(a + b + c, "side effect")
  {
    CharMissing(a + b + c, "side effect", 'f');
  }

  lemma RecoveryQueryLacksReaction(a: string, b: string, c: string)
    requires EndsInSpace(a) && EndsInSpace(b) && 'r' !in a && 'a' !in b && 'r' !in c
    ensures !Contains(a + b + c, "reaction")
  {
    CharMissing(a, "reaction", 'r');
    CharMissing(b, "reaction", 'a');
    CharMissing(c, "reaction", 'r');
    AbsentFromPieces(a, b, c, "reaction");
  }

  lemma RecoveryQueryLacksPrepare(a: string, b: string, c: string)
    requires EndsInSpace(a) && EndsInSpace(b) && 'p' !in a && 'p' !in b && 'r' !in c
    ensures !Contains(a + b + c, "prepare")
  {
    CharMissing(a, "prepare", 'p');
    CharMissing(b, "prepare", 'p');
    CharMissing(c, "prepare", 'r');
    AbsentFromPieces(a, b, c, "prepare");
  }

  lemma RecoveryQueryLacksPreparation(a: string, b: string, c: string)
    requires EndsInSpace(a) && EndsInSpace(b) && |a| < 11 && 'p' !in b && 'r' !in c
    ensures !Contains(a + b + c, "preparation")
  {
    CharMissing(b, "preparation", 'p');
    CharMissing(c, "preparation", 'r');
    AbsentFromPieces(a, b, c, "preparation");
  }

  lemma RecoveryQueryLacksDosha(a: string, b: string, c: string)
    requires EndsInSpace(a) && EndsInSpace(b) && 'd' !in a && 'h' !in b && 'd' !in c
    ensures !Contains(a + b + c, "dosha")
  {
    CharMissing(a, "dosha", 'd');
    CharMissing(b, "dosha", 'h');
    CharMissing(c, "dosha", 'd');
    AbsentFromPieces(a, b, c, "dosha");
  }

  lemma RecoveryQueryLacksConstitution(a: string, b: string, c: string)
    requires 'u' !in a && 'u' !in b && 'u' !in c
    ensures !Contains(a + b + c, "constitution")
  {
    CharMissing(a + b + c, "constitution", 'u');
  }

  lemma RecoveryPieceA1(a: string)
    requires a == "how long "
    ensures EndsInSpace(a)
    ensures 'b' !in a
    ensures 'd' !in a
    ensures 'f' !in a
    ensures 'e' !in a
    ensures 'r' !in a
  {
  }

  lemma RecoveryPieceA2(a: string)
    requires a == "how long "
    ensures 'p' !in a
    ensures |a| < 11
    ensures 'u' !in a
  {
  }

  lemma RecoveryPieceB1(b: string)
    requires b == "does recovery "
    ensures EndsInSpace(b)
    ensures 'b' !in b
    ensures 'i' !in b
    ensures 'f' !in b
    ensures 'a' !in b
    ensures 'p' !in b
  {
  }

  lemma RecoveryPieceB2(b: string)
    requires b == "does recovery "
    ensures 'h' !in b
    ensures 'u' !in b
  {
  }

  lemma RecoveryPieceC(c: string)
    requires c == "typically take?"
    ensures 'b' !in c
    ensures 'd' !in c
    ensures 'f' !in c
    ensures forall i :: 0 <= i < |c| - 1 ==> !(c[i] == 'e' && c[i + 1] == 'a')
    ensures 'r' !in c
    ensures 'u' !in c
  {
  }

  lemma RecoveryQueryHits(a: string, b: string, c: string)
    requires a == "how long " && b == "does recovery " && c == "typically take?"
    ensures Mentions(a + b + c, Recovery)
    ensures WordMentions(a + b + c, Recovery)
  {
    assert WordAt(a + b + c, "recovery", 14);
  }

  lemma RecoveryQueryMentions(la: string, lb: string, lc: string)
    requires la == "how long " && lb == "does recovery " && lc == "typically take?"
    ensures Mentions(la + lb + lc, Recovery)
    ensures forall u :: Rank(u) < Rank(Recovery) ==> !Mentions(la + lb + lc, u)
  {
    RecoveryPieceA1(la);
    RecoveryPieceA2(la);
    RecoveryPieceB1(lb);
    RecoveryPieceB2(lb);
    RecoveryPieceC(lc);
    RecoveryQueryLacksAbhyanga(la, lb, lc);
    RecoveryQueryLacksTherapyBenefit(la, lb, lc);
    RecoveryQueryLacksDiet(la, lb, lc);
    RecoveryQueryLacksFood(la, lb, lc);
    RecoveryQueryLacksEat(la, lb, lc);
    RecoveryQueryLacksSideEffect(la, lb, lc);
    RecoveryQueryLacksReaction(la, lb, lc);
    RecoveryQueryLacksPrepare(la, lb, lc);
    RecoveryQueryLacksPreparation(la, lb, lc);
    RecoveryQueryLacksDosha(la, lb, lc);
    RecoveryQueryLacksConstitution(la, lb, lc);
    RecoveryQueryHits(la, lb, lc);
  }

  lemma RecoveryQueryRoutes(query: string, a: string, b: string, c: string, la: string, lb: string, lc: string)
    requires a == "How long " && b == "does recovery " && c == "typically take?"
    requires la == "how long " && lb == "does recovery " && lc == "typically take?"
    requires query == a + b + c
    ensures Route(query) == Recovery
    ensures RouteWords(query) == Recovery
  {
    RecoveryQueryLowered(a, b, c, la, lb, lc);
    RecoveryQueryMentions(la, lb, lc);
    RecoveryQueryHits(la, lb, lc);
    RouteBy(query, Recovery);
    RouteWordsByMentions(query, Recovery);
  }

  /** Each quick action is answered with the topic its label promises. */
  lemma QuickActionsRouteToOwnAnswer()
    ensures forall i :: 0 <= i < |QuickActions| ==> Route(QuickActions[i].query) == QuickActions[i].answer
    ensures forall i :: 0 <= i < |QuickActions| ==> RouteWords(QuickActions[i].query) == QuickActions[i].answer
  {
    forall i | 0 <= i < |QuickActions|
      ensures Route(QuickActions[i].query) == QuickActions[i].answer
      ensures RouteWords(QuickActions[i].query) == QuickActions[i].answer
    {
      if i == 0 {
        BenefitsQueryRoutes(QuickActions[0].query, "What are ", "the benefits of ", "Abhyanga therapy?", "what are ", "the benefits of ", "abhyanga therapy?");
      } else if i == 1 {
        DietQueryRoutes(QuickActions[1].query, "What should I eat ", "during Panchakarma ", "treatment?", "what should i eat ", "during panchakarma ", "treatment?");
      } else if i == 2 {
        SideEffectsQueryRoutes(QuickActions[2].query, "What are common ", "side effects ", "of Panchakarma?", "what are common ", "side effects ", "of panchakarma?");
      } else if i == 3 {
        PreparationQueryRoutes(QuickActions[3].query, "How should I ", "prepare for my next ", "therapy session?", "how should i ", "prepare for my next ", "therapy session?");
      } else if i == 4 {
        DoshaQueryRoutes(QuickActions[4].query, "Can you explain ", "my dosha ", "constitution?", "can you explain ", "my dosha ", "constitution?");
      } else {
        RecoveryQueryRoutes(QuickActions[5].query, "How long ", "does recovery ", "typically take?", "how long ", "does recovery ", "typically take?");
      }
    }
  }

  /* ---------------------------------------------------------------- the chat */

  datatype Message = Welcome(name: string) | User(text: string) | Bot(answer: Topic)

  /** The text a send sends: a quick action's question as it is, otherwise the input line
      without its surrounding white space. */
  function Outgoing(messageText: Option<string>, input: string): (text: string)
    ensures messageText.Some? && messageText.value != [] ==> text == messageText.value
    ensures (messageText.None? || messageText.value == []) ==> text == Trim(input)
  {
    if messageText.Some? && messageText.value != [] then messageText.value else Trim(input)
  }

  class Chat {
    var messages: seq<Message>
    var inputMessage: string
    var isLoading: bool
    /** The answer waiting for the typing delay to end. */
    var pending: Option<Topic>

    ghost predicate Valid()
      reads this
    {
      isLoading <==> pending.Some?
    }

    constructor (name: string)
      ensures Valid()
      ensures messages == [Welcome(name)] && inputMessage == "" && !isLoading
    {
      messages, inputMessage, isLoading, pending := [Welcome(name)], "", false, None;
    }

    /** Typing into the input line. */
    method Type(text: string)
      requires Valid()
      modifies this`inputMessage
      ensures Valid() && inputMessage == text
    {
      inputMessage := text;
    }

    /** The Send button, with `messageText` set by a quick action. Every way of sending
        is disabled while a reply is loading. */
    predicate SendDisabled()
      reads this
    {
      isLoading || Trim(inputMessage) == []
    }

    /** An enabled Send button sends the trimmed input, which is never empty, so
        `SendMessage(None)` appends a message. */
    lemma EnabledSendSends()
      requires !SendDisabled()
      ensures !isLoading && Outgoing(None, inputMessage) == Trim(inputMessage) && Trim(inputMessage) != []
    {
    }

    /** `handleSendMessage(messageText)`: the text of `Outgoing` is sent, unless it is empty. */
    method SendMessage(messageText: Option<string>)
      requires Valid() && !isLoading
      modifies this
      ensures Valid()
      ensures Outgoing(messageText, old(inputMessage)) == [] ==>
                messages == old(messages) && inputMessage == old(inputMessage) && !isLoading
      ensures Outgoing(messageText, old(inputMessage)) != [] ==>
                messages == old(messages) + [User(Outgoing(messageText, old(inputMessage)))]
                && inputMessage == [] && isLoading
                && pending == Some(RouteWords(Outgoing(messageText, old(inputMessage))))
    {
      var text := Outgoing(messageText, inputMessage);
      if text == [] {
        return;
      }
      messages := messages + [User(text)];
      inputMessage := [];
      isLoading := true;
      pending := Some(RouteWords(text));
    }

    /** The end of the typing delay: the answer is appended and sending is enabled again. */
    method DeliverReply()
      requires Valid() && pending.Some?
      modifies this
      ensures Valid()
      ensures messages == old(messages) + [Bot(old(pending).value)] && !isLoading
      ensures inputMessage == old(inputMessage)
    {
      messages := messages + [Bot(pending.value)];
      isLoading := false;
      pending := None;
    }
  }
}
