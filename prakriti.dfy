/**
 * The Prakriti (dosha constitution) quiz of frontend/app/prakriti-analysis.bak/page.tsx.
 *
 * Twelve questions, ids 1 to 12, each answered with one dosha. Answers are kept in a map
 * from question id to dosha. When the last question is answered the page waits, then
 * tallies the answers, turns the tallies into rounded percentages, ranks the doshas with
 * a stable sort (vata, pitta, kapha on ties), picks a primary and possibly a secondary
 * dosha, labels the constitution and looks up the recommendation lists of the primary.
 */
module Prakriti {
  import opened Wrappers

  datatype Dosha = Vata | Pitta | Kapha

  /** The order `Object.entries` lists the doshas in, which the stable sort keeps on ties. */
  function Order(d: Dosha): nat {
    match d
    case Vata => 0
    case Pitta => 1
    case Kapha => 2
  }

  function Name(d: Dosha): string {
    match d
    case Vata => "vata"
    case Pitta => "pitta"
    case Kapha => "kapha"
  }

  const QuestionCount: nat := 12

  /** The id of the question at position `index`. */
  function QuestionId(index: nat): int {
    index + 1
  }

  /** One number per dosha: raw tallies or percentages. */
  datatype Scores = Scores(vata: int, pitta: int, kapha: int)

  function ScoreOf(s: Scores, d: Dosha): int {
    match d
    case Vata => s.vata
    case Pitta => s.pitta
    case Kapha => s.kapha
  }

  function AddOne(s: Scores, d: Dosha): (r: Scores)
    ensures ScoreOf(r, d) == ScoreOf(s, d) + 1
    ensures forall e :: e != d ==> ScoreOf(r, e) == ScoreOf(s, e)
  {
    match d
    case Vata => s.(vata := s.vata + 1)
    case Pitta => s.(pitta := s.pitta + 1)
    case Kapha => s.(kapha := s.kapha + 1)
  }

  /* ---------------------------------------------------------------- tally */

  /** The questions among `keys` answered with `d`. */
  function Voters(answers: map<int, Dosha>, keys: set<int>, d: Dosha): set<int> {
    set q | q in keys && q in answers && answers[q] == d
  }

  /** How many answers name each dosha. */
  function Tallies(answers: map<int, Dosha>): (s: Scores)
    ensures s.vata >= 0 && s.pitta >= 0 && s.kapha >= 0
    ensures s.vata + s.pitta + s.kapha == |answers|
  {
    VotersPartition(answers);
    Scores(|Voters(answers, answers.Keys, Vata)|,
           |Voters(answers, answers.Keys, Pitta)|,
           |Voters(answers, answers.Keys, Kapha)|)
  }

  /** Every answer names exactly one dosha. */
  lemma VotersPartition(answers: map<int, Dosha>)
    ensures |Voters(answers, answers.Keys, Vata)| + |Voters(answers, answers.Keys, Pitta)|
            + |Voters(answers, answers.Keys, Kapha)| == |answers|
  {
    var v, p, k := Voters(answers, answers.Keys, Vata), Voters(answers, answers.Keys, Pitta),
                   Voters(answers, answers.Keys, Kapha);
    assert v * p == {} && (v + p) * k == {};
    forall q | q in answers.Keys ensures q in v + p + k {
      assert answers[q] == Vata || answers[q] == Pitta || answers[q] == Kapha;
    }
    assert v + p + k == answers.Keys;
  }

  lemma VotersGrow(answers: map<int, Dosha>, keys: set<int>, q: int, d: Dosha)
    requires q in answers && q !in keys
    ensures |Voters(answers, keys + {q}, d)| == |Voters(answers, keys, d)| + (if answers[q] == d then 1 else 0)
  {
    if answers[q] == d {
      assert Voters(answers, keys + {q}, d) == Voters(answers, keys, d) + {q};
    } else {
      assert Voters(answers, keys + {q}, d) == Voters(answers, keys, d);
    }
  }

  lemma HasElement(s: set<int>)
    requires s != {}
    ensures exists k :: k in s
  {
    assert (forall k :: k !in s) ==> s == {};
  }

  /** The `forEach` over the answers: each answer adds one to its dosha's score, so the
      scores add up to the number of answers. */
  method Tally(answers: map<int, Dosha>) returns (scores: Scores)
    ensures scores == Tallies(answers)
    ensures scores.vata + scores.pitta + scores.kapha == |answers|
  {
    scores := Scores(0, 0, 0);
    var rest := answers.Keys;
    while rest != {}
      invariant rest <= answers.Keys
      invariant scores.vata == |Voters(answers, answers.Keys - rest, Vata)|
      invariant scores.pitta == |Voters(answers, answers.Keys - rest, Pitta)|
      invariant scores.kapha == |Voters(answers, answers.Keys - rest, Kapha)|
      invariant scores.vata + scores.pitta + scores.kapha == |answers.Keys - rest|
      decreases rest
    {
      HasElement(rest);
      var k :| k in rest;
      var done := answers.Keys - rest;
      VotersGrow(answers, done, k, Vata);
      VotersGrow(answers, done, k, Pitta);
      VotersGrow(answers, done, k, Kapha);
      assert answers.Keys - (rest - {k}) == done + {k};
      scores := AddOne(scores, answers[k]);
      rest := rest - {k};
    }
    assert answers.Keys - rest == answers.Keys;
  }

  /* ---------------------------------------------------------------- percentages */

  /** `Math.round((score / total) * 100)`, which rounds halves up, in whole numbers. */
  function Percent(score: nat, total: nat): (r: int)
    requires total > 0
    ensures 2 * total * r <= 200 * score + total < 2 * total * (r + 1)
    ensures score <= total ==> 0 <= r <= 100
  {
    var r := (200 * score + total) / (2 * total);
    assert score <= total ==> 200 * score + total < 2 * total * 101;
    r
  }

  function Percentages(tallies: Scores, total: nat): (r: Scores)
    requires total > 0
    requires tallies.vata >= 0 && tallies.pitta >= 0 && tallies.kapha >= 0
    requires tallies.vata + tallies.pitta + tallies.kapha == total
    ensures forall d :: 0 <= ScoreOf(r, d) <= 100
  {
    Scores(Percent(tallies.vata, total), Percent(tallies.pitta, total), Percent(tallies.kapha, total))
  }

  /* ---------------------------------------------------------------- stable ranking */

  /** Insert `d` before the first dosha that does not score higher, which is where a stable
      sort by descending score puts an element that came earlier than all of `ranked`. */
  function Insert(p: Scores, d: Dosha, ranked: seq<Dosha>): (r: seq<Dosha>)
    ensures |r| == |ranked| + 1
  {
    if ranked == [] || ScoreOf(p, d) >= ScoreOf(p, ranked[0]) then [d] + ranked
    else [ranked[0]] + Insert(p, d, ranked[1..])
  }

  /** `.sort(([,a], [,b]) => b - a)`: a stable sort by descending score. */
  function SortByScore(p: Scores, ds: seq<Dosha>): (r: seq<Dosha>)
    ensures |r| == |ds|
  {
    if ds == [] then [] else Insert(p, ds[0], SortByScore(p, ds[1..]))
  }

  /** The doshas of `percentages`, highest first, ties in vata, pitta, kapha order. */
  function Ranked(p: Scores): (r: seq<Dosha>)
    ensures |r| == 3
  {
    SortByScore(p, [Vata, Pitta, Kapha])
  }

  predicate Descending(p: Scores, s: seq<Dosha>) {
    forall i, j :: 0 <= i < j < |s| ==> ScoreOf(p, s[i]) >= ScoreOf(p, s[j])
  }

  /** Doshas with equal scores appear in their original order. */
  predicate TiesInOrder(p: Scores, s: seq<Dosha>) {
    forall i, j :: 0 <= i < j < |s| && ScoreOf(p, s[i]) == ScoreOf(p, s[j]) ==> Order(s[i]) < Order(s[j])
  }

  predicate InOrder(s: seq<Dosha>) {
    forall i, j :: 0 <= i < j < |s| ==> Order(s[i]) < Order(s[j])
  }

  lemma {:induction false} InsertKeeps(p: Scores, d: Dosha, ranked: seq<Dosha>)
    ensures multiset(Insert(p, d, ranked)) == multiset(ranked) + multiset{d}
    ensures |Insert(p, d, ranked)| == |ranked| + 1
  {
    if ranked != [] && ScoreOf(p, d) < ScoreOf(p, ranked[0]) {
      InsertKeeps(p, d, ranked[1..]);
      assert ranked == [ranked[0]] + ranked[1..];
    }
  }

  lemma {:induction false} InsertMembers(p: Scores, d: Dosha, ranked: seq<Dosha>, x: Dosha)
    ensures x in Insert(p, d, ranked) <==> x == d || x in ranked
  {
    if ranked != [] && ScoreOf(p, d) < ScoreOf(p, ranked[0]) {
      InsertMembers(p, d, ranked[1..], x);
      assert ranked == [ranked[0]] + ranked[1..];
    }
  }

  lemma {:induction false} InsertDescending(p: Scores, d: Dosha, ranked: seq<Dosha>)
    requires Descending(p, ranked)
    ensures Descending(p, Insert(p, d, ranked))
  {
    if ranked != [] && ScoreOf(p, d) < ScoreOf(p, ranked[0]) {
      var rest := Insert(p, d, ranked[1..]);
      InsertDescending(p, d, ranked[1..]);
      forall k | 0 <= k < |rest| ensures ScoreOf(p, ranked[0]) >= ScoreOf(p, rest[k]) {
        InsertMembers(p, d, ranked[1..], rest[k]);
        if rest[k] != d {
          var m :| 0 <= m < |ranked[1..]| && ranked[1..][m] == rest[k];
          assert ranked[m + 1] == rest[k];
        }
      }
    }
  }

  lemma {:induction false} InsertTiesInOrder(p: Scores, d: Dosha, ranked: seq<Dosha>)
    requires TiesInOrder(p, ranked)
    requires forall k :: 0 <= k < |ranked| ==> Order(d) < Order(ranked[k])
    ensures TiesInOrder(p, Insert(p, d, ranked))
  {
    if ranked != [] && ScoreOf(p, d) < ScoreOf(p, ranked[0]) {
      var rest := Insert(p, d, ranked[1..]);
      InsertTiesInOrder(p, d, ranked[1..]);
      forall k | 0 <= k < |rest| && ScoreOf(p, ranked[0]) == ScoreOf(p, rest[k])
        ensures Order(ranked[0]) < Order(rest[k])
      {
        InsertMembers(p, d, ranked[1..], rest[k]);
        var m :| 0 <= m < |ranked[1..]| && ranked[1..][m] == rest[k];
        assert ranked[m + 1] == rest[k];
      }
    }
  }

  lemma {:induction false} SortByScorePermutes(p: Scores, ds: seq<Dosha>)
    ensures multiset(SortByScore(p, ds)) == multiset(ds)
  {
    if ds != [] {
      SortByScorePermutes(p, ds[1..]);
      InsertKeeps(p, ds[0], SortByScore(p, ds[1..]));
      assert ds == [ds[0]] + ds[1..];
    }
  }

  lemma {:induction false} SortByScoreMembers(p: Scores, ds: seq<Dosha>, x: Dosha)
    ensures x in SortByScore(p, ds) <==> x in ds
  {
    if ds != [] {
      SortByScoreMembers(p, ds[1..], x);
      InsertMembers(p, ds[0], SortByScore(p, ds[1..]), x);
      assert ds == [ds[0]] + ds[1..];
    }
  }

  lemma {:induction false} SortByScoreDescending(p: Scores, ds: seq<Dosha>)
    ensures Descending(p, SortByScore(p, ds))
  {
    if ds != [] {
      SortByScoreDescending(p, ds[1..]);
      InsertDescending(p, ds[0], SortByScore(p, ds[1..]));
    }
  }

  lemma {:induction false} SortByScoreTies(p: Scores, ds: seq<Dosha>)
    requires InOrder(ds)
    ensures TiesInOrder(p, SortByScore(p, ds))
  {
    if ds != [] {
      var sorted := SortByScore(p, ds[1..]);
      SortByScoreTies(p, ds[1..]);
      forall k | 0 <= k < |sorted| ensures Order(ds[0]) < Order(sorted[k]) {
        SortByScoreMembers(p, ds[1..], sorted[k]);
        var m :| 0 <= m < |ds[1..]| && ds[1..][m] == sorted[k];
        assert ds[m + 1] == sorted[k];
      }
      InsertTiesInOrder(p, ds[0], sorted);
    }
  }

  /** The ranking is a descending, stable permutation of its input. */
  lemma SortByScoreCorrect(p: Scores, ds: seq<Dosha>)
    requires InOrder(ds)
    ensures multiset(SortByScore(p, ds)) == multiset(ds)
    ensures Descending(p, SortByScore(p, ds))
    ensures TiesInOrder(p, SortByScore(p, ds))
  {
    SortByScorePermutes(p, ds);
    SortByScoreDescending(p, ds);
    SortByScoreTies(p, ds);
  }

  /** The primary dosha as the page promises it: a highest score, and no dosha listed
      before it scores as much. */
  ghost predicate IsPrimary(p: Scores, d: Dosha) {
    && (forall e :: ScoreOf(p, e) <= ScoreOf(p, d))
    && (forall e :: Order(e) < Order(d) ==> ScoreOf(p, e) < ScoreOf(p, d))
  }

  lemma AllDoshasIn(r: seq<Dosha>)
    requires multiset(r) == multiset([Vata, Pitta, Kapha])
    ensures forall d :: d in r
  {
    forall d ensures d in r {
      assert d in multiset([Vata, Pitta, Kapha]) by {
        match d
        case Vata => assert [Vata, Pitta, Kapha][0] == d;
        case Pitta => assert [Vata, Pitta, Kapha][1] == d;
        case Kapha => assert [Vata, Pitta, Kapha][2] == d;
      }
    }
  }

  lemma RankedIsPermutation(p: Scores)
    ensures forall d :: d in Ranked(p)
    ensures Ranked(p)[0] != Ranked(p)[1] && Ranked(p)[1] != Ranked(p)[2] && Ranked(p)[0] != Ranked(p)[2]
    ensures Descending(p, Ranked(p)) && TiesInOrder(p, Ranked(p))
  {
    SortByScoreCorrect(p, [Vata, Pitta, Kapha]);
    AllDoshasIn(Ranked(p));
  }

  /** The first-ranked dosha is the primary dosha, and it is the only one. */
  lemma RankedFirstIsPrimary(p: Scores)
    ensures IsPrimary(p, Ranked(p)[0])
    ensures forall d :: IsPrimary(p, d) ==> d == Ranked(p)[0]
  {
    RankedIsPermutation(p);
    var r := Ranked(p);
    forall e ensures ScoreOf(p, e) <= ScoreOf(p, r[0]) {
      assert e in r;
      var k :| 0 <= k < 3 && r[k] == e;
      assert k == 0 || ScoreOf(p, r[0]) >= ScoreOf(p, r[k]);
    }
    forall e | Order(e) < Order(r[0]) ensures ScoreOf(p, e) < ScoreOf(p, r[0]) {
      assert e in r;
      var k :| 0 <= k < 3 && r[k] == e;
      assert k != 0;
    }
    forall d | IsPrimary(p, d) ensures d == r[0] {
      if d != r[0] {
        assert false;
      }
    }
  }

  /* ---------------------------------------------------------------- the result */

  function Capitalized(d: Dosha): string {
    var n := Name(d);
    [(n[0] as int - 32) as char] + n[1..]
  }

  const DualSuffix: string := " (Dual Constitution)"
  const DominantSuffix: string := " Dominant"

  /** "Primary-Secondary (Dual Constitution)" when a secondary dosha is within ten points
      of the primary, "Primary Dominant" otherwise. */
  function ConstitutionLabel(p: Scores, primary: Dosha, secondary: Option<Dosha>): (text: string)
    ensures var dual := secondary.Some? && -10 <= ScoreOf(p, primary) - ScoreOf(p, secondary.value) <= 10;
            && (dual ==> text == Capitalized(primary) + "-" + Capitalized(secondary.value) + DualSuffix)
            && (!dual ==> text == Capitalized(primary) + DominantSuffix)
  {
    if secondary.Some? && -10 <= ScoreOf(p, primary) - ScoreOf(p, secondary.value) <= 10 then
      Capitalized(primary) + "-" + Capitalized(secondary.value) + DualSuffix
    else
      Capitalized(primary) + DominantSuffix
  }

  datatype Recommendations = Recommendations(diet: seq<string>, lifestyle: seq<string>,
                                             therapies: seq<string>, precautions: seq<string>)

  /** `getRecommendations`: four fixed lists of five per dosha. */
  function RecommendationsFor(d: Dosha): Recommendations {
    match d
    case Vata => VataRecommendations
    case Pitta => PittaRecommendations
    case Kapha => KaphaRecommendations
  }

  const VataRecommendations: Recommendations := Recommendations(
    ["Warm, cooked, moist foods", "Sweet, sour, and salty tastes", "Regular meal times",
     "Avoid cold, dry, raw foods", "Ghee, oils, and healthy fats"],
    ["Regular daily routine", "Adequate rest and sleep", "Gentle, grounding exercises",
     "Warm oil massages", "Meditation and breathing practices"],
    ["Abhyanga (oil massage)", "Shirodhara (oil pouring)", "Basti (medicated enemas)",
     "Nasya (nasal treatments)", "Steam therapy"],
    ["Avoid excessive travel", "Limit stimulants like caffeine", "Avoid skipping meals",
     "Protect from cold and wind", "Manage stress and anxiety"])

  const PittaRecommendations: Recommendations := Recommendations(
    ["Cool, refreshing foods", "Sweet, bitter, and astringent tastes", "Fresh fruits and vegetables",
     "Avoid spicy, oily, acidic foods", "Coconut water and cooling drinks"],
    ["Moderate exercise, avoid overheating", "Cool environment", "Relaxation and leisure time",
     "Avoid excessive competition", "Practice patience and compassion"],
    ["Shirodhara with cooling oils", "Pizhichil (oil bath)", "Virechana (purgation)",
     "Cooling herbal treatments", "Moonlight meditation"],
    ["Avoid excessive heat and sun", "Limit anger and criticism", "Avoid skipping meals",
     "Moderate alcohol consumption", "Manage perfectionist tendencies"])

  const KaphaRecommendations: Recommendations := Recommendations(
    ["Light, warm, spicy foods", "Pungent, bitter, and astringent tastes", "Reduce dairy and sweet foods",
     "Increase vegetables and legumes", "Warm teas and spices"],
    ["Regular vigorous exercise", "Early rising (before 6 AM)", "Stimulating activities",
     "Dry brushing and massage", "Social interaction and variety"],
    ["Udvartana (powder massage)", "Vamana (therapeutic vomiting)", "Steam therapy",
     "Dry heat treatments", "Energizing herbal treatments"],
    ["Avoid oversleeping", "Limit heavy, oily foods", "Avoid excessive sitting",
     "Manage attachment and possessiveness", "Stay active and motivated"])

  /** The result card. Its recommendations are those of the primary dosha,
      `RecommendationsFor(primary)`, so the result does not repeat them. */
  datatype AnalysisResult = AnalysisResult(primary: Dosha, secondary: Option<Dosha>, scores: Scores,
                                           constitution: string)

  /** Everything `calculateResults` does after the tally. */
  function Analyze(tallies: Scores, total: nat): (r: AnalysisResult)
    requires total > 0
    requires tallies.vata >= 0 && tallies.pitta >= 0 && tallies.kapha >= 0
    requires tallies.vata + tallies.pitta + tallies.kapha == total
    ensures forall d :: 0 <= ScoreOf(r.scores, d) <= 100
    ensures r.secondary.Some? ==> ScoreOf(r.scores, r.secondary.value) >= 25
  {
    var p := Percentages(tallies, total);
    var ranked := Ranked(p);
    var primary := ranked[0];
    var secondary := if ScoreOf(p, ranked[1]) >= 25 then Some(ranked[1]) else None;
    AnalysisResult(primary, secondary, p, ConstitutionLabel(p, primary, secondary))
  }

  /** The result names the primary dosha, a different secondary dosha exactly when the
      runner-up reaches 25%, and the label for the two. */
  lemma AnalyzeCorrect(tallies: Scores, total: nat)
    requires total > 0
    requires tallies.vata >= 0 && tallies.pitta >= 0 && tallies.kapha >= 0
    requires tallies.vata + tallies.pitta + tallies.kapha == total
    ensures var r := Analyze(tallies, total);
            && r.scores == Percentages(tallies, total)
            && IsPrimary(r.scores, r.primary)
            && (r.secondary.Some? <==> ScoreOf(r.scores, Ranked(r.scores)[1]) >= 25)
            && (r.secondary.Some? ==>
                  && r.secondary.value == Ranked(r.scores)[1] && r.secondary.value != r.primary
                  && ScoreOf(r.scores, r.secondary.value) <= ScoreOf(r.scores, r.primary))
            && r.constitution == ConstitutionLabel(r.scores, r.primary, r.secondary)
  {
    var p := Percentages(tallies, total);
    RankedFirstIsPrimary(p);
    RankedIsPermutation(p);
  }

  /** `calculateResults`, given the answers the page scores. */
  method CalculateResults(answers: map<int, Dosha>) returns (r: AnalysisResult)
    requires |answers| > 0
    ensures r == Analyze(Tallies(answers), |answers|)
    ensures IsPrimary(r.scores, r.primary)
  {
    var tallies := Tally(answers);
    r := Analyze(tallies, |answers|);
    AnalyzeCorrect(tallies, |answers|);
  }

  /* ---------------------------------------------------------------- the quiz page */

  ghost predicate QuestionIds(answers: map<int, Dosha>) {
    forall q :: q in answers ==> 1 <= q <= QuestionCount
  }

  function Range(lo: int, hi: int): (r: set<int>)
    ensures forall q :: q in r <==> lo <= q < hi
    decreases hi - lo
  {
    if lo >= hi then {} else Range(lo, hi - 1) + {hi - 1}
  }

  lemma {:induction false} RangeSize(lo: int, hi: int)
    requires lo <= hi
    ensures |Range(lo, hi)| == hi - lo
    decreases hi - lo
  {
    if lo < hi {
      RangeSize(lo, hi - 1);
    }
  }

  /** However often questions are answered again, there are at most twelve answers, and
      exactly twelve once every question has one. */
  lemma KeysWithin(keys: set<int>, n: nat)
    requires forall q :: q in keys ==> 1 <= q <= n
    ensures |keys| <= n
    ensures (forall q :: 1 <= q <= n ==> q in keys) ==> |keys| == n
  {
    var ids := Range(1, n + 1);
    RangeSize(1, n + 1);
    assert keys <= ids;
    assert ids == keys + (ids - keys);
    assert keys * (ids - keys) == {};
    if forall q :: 1 <= q <= n ==> q in keys {
      assert ids - keys == {};
    }
  }

  lemma AnswerCount(answers: map<int, Dosha>)
    requires QuestionIds(answers)
    ensures |answers| <= QuestionCount
    ensures (forall q :: 1 <= q <= QuestionCount ==> q in answers) ==> |answers| == QuestionCount
  {
    KeysWithin(answers.Keys, QuestionCount);
  }

  /** The page's state. `pending` holds the answers the delayed scoring will use, from the
      moment the last question is answered until the delay ends. */
  class Quiz {
    var currentQuestion: nat
    var answers: map<int, Dosha>
    var loading: bool
    var showResults: bool
    var result: Option<AnalysisResult>
    var pending: Option<map<int, Dosha>>

    ghost predicate Valid()
      reads this
    {
      && currentQuestion < QuestionCount
      && QuestionIds(answers)
      && (forall i :: 0 <= i < currentQuestion ==> QuestionId(i) in answers)
      && (pending.Some? ==>
            && QuestionIds(pending.value)
            && forall q :: 1 <= q <= QuestionCount ==> q in pending.value)
    }

    constructor ()
      ensures Valid()
      ensures currentQuestion == 0 && answers == map[] && !loading && !showResults
      ensures result == None && pending == None
    {
      currentQuestion, answers, loading, showResults, result, pending := 0, map[], false, false, None, None;
    }

    /** `handleAnswer`: store the answer under the current question's id, replacing any earlier
        one; move on unless this was the last question, in which case start the delayed
        scoring of all the answers. The answer buttons are only shown while neither loading
        nor showing results. */
    method HandleAnswer(d: Dosha)
      requires Valid() && !loading && !showResults
      modifies this
      ensures Valid()
      ensures answers == old(answers)[QuestionId(old(currentQuestion)) := d]
      ensures old(currentQuestion) < QuestionCount - 1 ==>
                currentQuestion == old(currentQuestion) + 1 && !loading && pending == old(pending)
      ensures old(currentQuestion) == QuestionCount - 1 ==>
                currentQuestion == old(currentQuestion) && loading && pending == Some(answers)
      ensures showResults == old(showResults) && result == old(result)
    {
      answers := answers[QuestionId(currentQuestion) := d];
      if currentQuestion < QuestionCount - 1 {
        currentQuestion := currentQuestion + 1;
      } else {
        forall q | 1 <= q <= QuestionCount ensures q in answers {
          assert q == QuestionCount || QuestionId(q - 1) in old(answers);
        }
        loading := true;
        pending := Some(answers);
      }
    }

    /** The "Previous Question" button, shown only past the first question. */
    method PreviousQuestion()
      requires Valid() && currentQuestion > 0
      modifies this`currentQuestion
      ensures Valid()
      ensures currentQuestion == old(currentQuestion) - 1
    {
      currentQuestion := currentQuestion - 1;
    }

    /** The end of the delay: score the pending answers and show the result. */
    method FinishAnalysis()
      requires Valid() && pending.Some?
      modifies this
      ensures Valid()
      ensures result.Some? && showResults && !loading && pending == None
      ensures |old(pending).value| == QuestionCount
      ensures result.value == Analyze(Tallies(old(pending).value), QuestionCount)
      ensures currentQuestion == old(currentQuestion) && answers == old(answers)
    {
      AnswerCount(pending.value);
      var r := CalculateResults(pending.value);
      result := Some(r);
      showResults := true;
      loading := false;
      pending := None;
    }

    /** `restartQuiz`. */
    method Restart()
      requires Valid()
      modifies this
      ensures Valid()
      ensures currentQuestion == 0 && answers == map[] && !showResults && result == None
      ensures loading == old(loading) && pending == old(pending)
    {
      currentQuestion := 0;
      answers := map[];
      showResults := false;
      result := None;
    }
  }

  /* ---------------------------------------------------------------- the last answer */

  /** What the page as written scores: the delayed callback calls the `calculateResults`
      of the render in which `handleAnswer` ran, whose `answers` do not yet hold the answer
      just given, so the last answer is left out. */
  function AnswersScoredAsWritten(before: map<int, Dosha>): map<int, Dosha> {
    before
  }

  /** What the page means to score: every answer, the last one included. */
  function AnswersScoredIntended(before: map<int, Dosha>, lastId: int, last: Dosha): (r: map<int, Dosha>)
    ensures lastId in r && r[lastId] == last
    ensures forall q :: q in before && q != lastId ==> q in r && r[q] == before[q]
  {
    before[lastId := last]
  }

  /** A new answer adds one voter to its own dosha and none to the others. */
  lemma VotersOfNewAnswer(before: map<int, Dosha>, lastId: int, last: Dosha, d: Dosha)
    requires lastId !in before
    ensures |Voters(before[lastId := last], before[lastId := last].Keys, d)|
            == |Voters(before, before.Keys, d)| + (if last == d then 1 else 0)
  {
    var intended := before[lastId := last];
    assert intended.Keys == before.Keys + {lastId};
    assert Voters(intended, before.Keys, d) == Voters(before, before.Keys, d);
    VotersGrow(intended, before.Keys, lastId, d);
  }

  /** Leaving out the last answer takes one vote from its dosha and changes the total. */
  lemma LastAnswerLostVote(before: map<int, Dosha>, lastId: int, last: Dosha)
    requires lastId !in before
    ensures var written := AnswersScoredAsWritten(before);
            var intended := AnswersScoredIntended(before, lastId, last);
            && |intended| == |written| + 1
            && Tallies(intended) == AddOne(Tallies(written), last)
  {
    VotersOfNewAnswer(before, lastId, last, Vata);
    VotersOfNewAnswer(before, lastId, last, Pitta);
    VotersOfNewAnswer(before, lastId, last, Kapha);
    assert |before[lastId := last]| == |before| + 1;
  }

  /** Five vata, five pitta and one kapha out of eleven is a vata-pitta tie at 45% each,
      and the tie goes to vata. */
  lemma ElevenAnswersScored(tallies: Scores, total: nat)
    requires tallies == Scores(5, 5, 1) && total == 11
    ensures Analyze(tallies, total).primary == Vata
    ensures Analyze(tallies, total).constitution == "Vata-Pitta (Dual Constitution)"
  {
    var p := Percentages(tallies, total);
    assert p == Scores(45, 45, 9);
    RankedFirstIsPrimary(p);
    assert Ranked(p) == [Vata, Pitta, Kapha];
    var r := Analyze(tallies, total);
    assert r.primary == Vata && r.secondary == Some(Pitta);
    TieLabel();
  }

  lemma TieLabel()
    ensures ConstitutionLabel(Scores(45, 45, 9), Vata, Some(Pitta)) == "Vata-Pitta (Dual Constitution)"
  {
    CapitalizedNames();
  }

  /** Five vata, six pitta and one kapha out of twelve is pitta 50% against vata 42%. */
  lemma TwelveAnswersScored(tallies: Scores, total: nat)
    requires tallies == Scores(5, 6, 1) && total == 12
    ensures Analyze(tallies, total).primary == Pitta
    ensures Analyze(tallies, total).constitution == "Pitta-Vata (Dual Constitution)"
  {
    var p := Percentages(tallies, total);
    assert p == Scores(42, 50, 8);
    RankedFirstIsPrimary(p);
    assert Ranked(p) == [Pitta, Vata, Kapha];
    var r := Analyze(tallies, total);
    assert r.primary == Pitta && r.secondary == Some(Vata);
    PittaLeadLabel();
  }

  lemma PittaLeadLabel()
    ensures ConstitutionLabel(Scores(42, 50, 8), Pitta, Some(Vata)) == "Pitta-Vata (Dual Constitution)"
  {
    CapitalizedNames();
  }

  /** Eleven answers split five vata, five pitta, one kapha, then a last answer of pitta:
      the page as written calls vata primary, where scoring every answer calls pitta primary. */
  lemma LastAnswerChangesPrimary(before: map<int, Dosha>)
    requires QuestionCount !in before && Tallies(before) == Scores(5, 5, 1)
    ensures var written := AnswersScoredAsWritten(before);
            var intended := AnswersScoredIntended(before, QuestionCount, Pitta);
            && Analyze(Tallies(written), |written|).primary == Vata
            && Analyze(Tallies(intended), |intended|).primary == Pitta
  {
    LastAnswerLostVote(before, QuestionCount, Pitta);
    ElevenAnswersScored(Tallies(before), |before|);
    TwelveAnswersScored(Tallies(before[QuestionCount := Pitta]), |before[QuestionCount := Pitta]|);
  }

  lemma CapitalizedNames()
    ensures Capitalized(Vata) == "Vata" && Capitalized(Pitta) == "Pitta" && Capitalized(Kapha) == "Kapha"
  {
  }
}
