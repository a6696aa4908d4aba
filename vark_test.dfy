/**
 * Scoring and question sequencing of the VARK test (src/components/VarkTest.tsx).
 */
module VarkTest {
  import opened Wrappers
  import opened VarkQuestions

  /** The `scores` record of calculateResult: one counter per style. */
  datatype Scores = Scores(visual: nat, auditory: nat, reading: nat, kinesthetic: nat)

  /** What calculateResult hands to the backend: the four scores and the dominant style. */
  datatype VarkResult = VarkResult(scores: Scores, dominantStyle: Style)

  const NoScores := Scores(0, 0, 0, 0)

  function ScoreOf(s: Scores, st: Style): nat
  {
    match st
    case Visual => s.visual
    case Auditory => s.auditory
    case Reading => s.reading
    case Kinesthetic => s.kinesthetic
  }

  function Total(s: Scores): nat
  {
    s.visual + s.auditory + s.reading + s.kinesthetic
  }

  /** `scores[answer]++`: one more for `st`, the other counters untouched. */
  function Bump(s: Scores, st: Style): (r: Scores)
    ensures ScoreOf(r, st) == ScoreOf(s, st) + 1
    ensures forall o :: o != st ==> ScoreOf(r, o) == ScoreOf(s, o)
    ensures Total(r) == Total(s) + 1
  {
    match st
    case Visual => s.(visual := s.visual + 1)
    case Auditory => s.(auditory := s.auditory + 1)
    case Reading => s.(reading := s.reading + 1)
    case Kinesthetic => s.(kinesthetic := s.kinesthetic + 1)
  }

  /** The scores after the forEach over `answers`, from left to right. */
  function Tally(answers: seq<Style>): Scores
  {
    if answers == [] then NoScores
    else Bump(Tally(answers[..|answers| - 1]), answers[|answers| - 1])
  }

  /** The four scores add up to the number of answers. */
  lemma {:induction false} TallyTotal(answers: seq<Style>)
    ensures Total(Tally(answers)) == |answers|
  {
    if answers != [] {
      TallyTotal(answers[..|answers| - 1]);
    }
  }

  /** Each style's score is the number of times that style occurs among the answers. */
  lemma {:induction false} TallyCountsOccurrences(answers: seq<Style>, st: Style)
    ensures ScoreOf(Tally(answers), st) == multiset(answers)[st]
  {
    if answers != [] {
      var n := |answers| - 1;
      TallyCountsOccurrences(answers[..n], st);
      assert answers == answers[..n] + [answers[n]];
      assert multiset(answers) == multiset(answers[..n]) + multiset{answers[n]};
    }
  }

  lemma TallyCountsEveryStyle(answers: seq<Style>)
    ensures forall st :: ScoreOf(Tally(answers), st) == multiset(answers)[st]
  {
    forall st | true ensures ScoreOf(Tally(answers), st) == multiset(answers)[st] {
      TallyCountsOccurrences(answers, st);
    }
  }

  /** `Math.max` of the four scores. */
  function MaxScore(s: Scores): (m: nat)
    ensures forall st :: ScoreOf(s, st) <= m
    ensures exists st :: ScoreOf(s, st) == m
  {
    var m1 := if s.visual >= s.auditory then s.visual else s.auditory;
    var m2 := if m1 >= s.reading then m1 else s.reading;
    var m := if m2 >= s.kinesthetic then m2 else s.kinesthetic;
    assert ScoreOf(s, Visual) == m || ScoreOf(s, Auditory) == m
        || ScoreOf(s, Reading) == m || ScoreOf(s, Kinesthetic) == m;
    m
  }

  /** Position of a style in the fixed check order visual, auditory, reading, kinesthetic. */
  function Priority(st: Style): nat
  {
    match st
    case Visual => 0
    case Auditory => 1
    case Reading => 2
    case Kinesthetic => 3
  }

  /**
   * The dominant style: a style with the maximal score; when several share it,
   * the first in the check order visual, auditory, reading, kinesthetic.
   */
  function Dominant(s: Scores): (r: Style)
    ensures ScoreOf(s, r) == MaxScore(s)
    ensures forall st :: Priority(st) < Priority(r) ==> ScoreOf(s, st) < ScoreOf(s, r)
  {
    var maxScore := MaxScore(s);
    if s.visual == maxScore then Visual
    else if s.auditory == maxScore then Auditory
    else if s.reading == maxScore then Reading
    else Kinesthetic
  }

  /**
   * The two properties of Dominant determine it: no other style is maximal and
   * ahead of every other maximal style in the check order.
   */
  lemma DominantIsUnique(s: Scores, r: Style)
    requires ScoreOf(s, r) == MaxScore(s)
    requires forall st :: Priority(st) < Priority(r) ==> ScoreOf(s, st) < ScoreOf(s, r)
    ensures r == Dominant(s)
  {
  }

  /** The tie-break read style by style. */
  lemma TieBreak(s: Scores)
    ensures Dominant(s) == Visual <==> s.visual == MaxScore(s)
    ensures Dominant(s) == Auditory <==> s.visual < s.auditory && s.auditory == MaxScore(s)
    ensures Dominant(s) == Reading <==>
              s.visual < s.reading && s.auditory < s.reading && s.reading == MaxScore(s)
    ensures Dominant(s) == Kinesthetic <==>
              s.kinesthetic > s.visual && s.kinesthetic > s.auditory && s.kinesthetic > s.reading
  {
    assert ScoreOf(s, Dominant(s)) == MaxScore(s);
  }

  /** The worked example: 4 visual, 2 auditory, 3 reading, 1 kinesthetic answers. */
  lemma ExampleTrace()
    ensures var answers := [Visual, Visual, Visual, Auditory, Auditory,
                            Reading, Reading, Reading, Kinesthetic, Visual];
            Tally(answers) == Scores(4, 2, 3, 1) && Dominant(Tally(answers)) == Visual
  {
    var answers := [Visual, Visual, Visual, Auditory, Auditory,
                    Reading, Reading, Reading, Kinesthetic, Visual];
    TallyCountsOccurrences(answers, Visual);
    TallyCountsOccurrences(answers, Auditory);
    TallyCountsOccurrences(answers, Reading);
    TallyCountsOccurrences(answers, Kinesthetic);
    assert multiset(answers)[Visual] == 4;
    assert multiset(answers)[Auditory] == 2;
    assert multiset(answers)[Reading] == 3;
    assert multiset(answers)[Kinesthetic] == 1;
  }

  /**
   * calculateResult: counts every answer into `scores`, then picks the dominant
   * style by the if-else chain over the maximum.
   */
  method CalculateResult(finalAnswers: seq<Style>) returns (result: VarkResult)
    ensures result.scores == Tally(finalAnswers)
    ensures Total(result.scores) == |finalAnswers|
    ensures forall st :: ScoreOf(result.scores, st) == multiset(finalAnswers)[st]
    ensures result.dominantStyle == Dominant(result.scores)
  {
    var scores := NoScores;
    var i := 0;
    while i < |finalAnswers|
      invariant 0 <= i <= |finalAnswers|
      invariant scores == Tally(finalAnswers[..i])
    {
      assert finalAnswers[..i + 1][..i] == finalAnswers[..i];
      scores := Bump(scores, finalAnswers[i]);
      i := i + 1;
    }
    assert finalAnswers[..i] == finalAnswers;
    TallyTotal(finalAnswers);
    TallyCountsEveryStyle(finalAnswers);

    var maxScore := MaxScore(scores);
    var dominantStyle;
    if scores.visual == maxScore {
      dominantStyle := Visual;
    } else if scores.auditory == maxScore {
      dominantStyle := Auditory;
    } else if scores.reading == maxScore {
      dominantStyle := Reading;
    } else {
      dominantStyle := Kinesthetic;
    }
    result := VarkResult(scores, dominantStyle);
  }

  /**
   * The state of the VarkTest component. `results` records every call of
   * calculateResult, i.e. every result handed to the backend and to onComplete.
   */
  class VarkTestSession {
    var currentQuestion: nat
    var answers: seq<Style>
    var selectedOption: Option<nat>
    var results: seq<VarkResult>

    /**
     * One answer per question passed; the last question is only left by
     * completing, and a selection always names an option of the current question.
     */
    ghost predicate Valid()
      reads this
    {
      currentQuestion < |Questions| &&
      |answers| == currentQuestion + |results| &&
      (results != [] ==> currentQuestion == |Questions| - 1) &&
      (selectedOption.Some? ==> selectedOption.value < |Questions[currentQuestion].options|)
    }

    /** The initial state: first question, no answers, nothing selected. */
    constructor ()
      ensures Valid()
      ensures currentQuestion == 0 && answers == [] && selectedOption == None && results == []
    {
      currentQuestion := 0;
      answers := [];
      selectedOption := None;
      results := [];
    }

    /** Clicking option `index` of the current question. */
    method SelectOption(index: nat)
      requires Valid()
      requires index < |Questions[currentQuestion].options|
      modifies this
      ensures Valid()
      ensures selectedOption == Some(index)
      ensures currentQuestion == old(currentQuestion) && answers == old(answers)
      ensures results == old(results)
    {
      selectedOption := Some(index);
    }

    /**
     * handleNext: without a selection nothing happens; otherwise the selected
     * option's style is appended, the selection cleared, and either the next
     * question is shown or, on the last one, the result is calculated.
     */
    method HandleNext()
      requires Valid()
      modifies this
      ensures Valid()
      ensures old(selectedOption).None? ==>
                currentQuestion == old(currentQuestion) && answers == old(answers) &&
                selectedOption == None && results == old(results)
      ensures old(selectedOption).Some? ==>
                answers == old(answers) +
                  [Questions[old(currentQuestion)].options[old(selectedOption).value]] &&
                selectedOption == None
      ensures old(selectedOption).Some? && old(currentQuestion) < |Questions| - 1 ==>
                currentQuestion == old(currentQuestion) + 1 && results == old(results)
      ensures old(selectedOption).Some? && old(currentQuestion) == |Questions| - 1 ==>
                currentQuestion == old(currentQuestion) &&
                results == old(results) + [VarkResult(Tally(answers), Dominant(Tally(answers)))]
      ensures old(results) == [] && results != [] ==> |answers| == |Questions|
    {
      if selectedOption.Some? {
        var newAnswers := answers + [Questions[currentQuestion].options[selectedOption.value]];
        answers := newAnswers;
        selectedOption := None;
        if currentQuestion < |Questions| - 1 {
          currentQuestion := currentQuestion + 1;
        } else {
          var result := CalculateResult(newAnswers);
          results := results + [result];
        }
      }
    }
  }

  /**
   * Taking the whole test: choosing option `choices[i]` on question i for every
   * question completes the test once, with the tally of the chosen styles.
   */
  method TakeTest(choices: seq<nat>) returns (session: VarkTestSession)
    requires |choices| == |Questions|
    requires forall i :: 0 <= i < |choices| ==> choices[i] < |Questions[i].options|
    ensures fresh(session) && session.Valid()
    ensures |session.answers| == |Questions|
    ensures forall i :: 0 <= i < |Questions| ==>
              session.answers[i] == Questions[i].options[choices[i]]
    ensures session.results == [VarkResult(Tally(session.answers), Dominant(Tally(session.answers)))]
  {
    session := new VarkTestSession();
    var i := 0;
    while i < |choices|
      invariant 0 <= i <= |choices|
      invariant session.Valid()
      invariant session.selectedOption == None
      invariant i < |choices| ==> session.currentQuestion == i && session.results == []
      invariant i == |choices| ==>
                  session.results == [VarkResult(Tally(session.answers), Dominant(Tally(session.answers)))]
      invariant |session.answers| == i
      invariant forall k :: 0 <= k < i ==> session.answers[k] == Questions[k].options[choices[k]]
    {
      session.SelectOption(choices[i]);
      session.HandleNext();
      i := i + 1;
    }
  }
}
