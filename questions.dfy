/**
 * The questionnaire page: one radio per question with no pre-selected
 * answer, a gate that refuses a submission with any question unanswered,
 * and on a complete submission the predicted category, the three
 * sub-scores and their severity bands.
 */
module Questions {
  import opened Wrappers
  import opened Scoring
  import opened Categories

  const IncompleteMessage := "Please answer all questions before submitting."

  /** What the page shows after a submission. */
  datatype Assessment = Assessment(
    category: string,
    scores: Scores,
    stressBand: string,
    anxietyBand: string,
    depressionBand: string)

  datatype Outcome =
    | Incomplete(message: string)
    | UnknownCode(code: int)      // category_mapping[prediction] raised KeyError
    | Assessed(assessment: Assessment)

  /**
   * The radio of question i (widget key q_i, no default index): the chosen
   * option once one is chosen, None before.
   */
  function RadioAnswer(selected: map<nat, Answer>, i: nat): (a: Option<Answer>)
    ensures a.Some? <==> i in selected
    ensures a.Some? ==> a.value == selected[i]
  {
    if i in selected then Some(selected[i]) else None
  }

  /** The responses list the page builds for n questions. */
  function RadioResponses(n: nat, selected: map<nat, Answer>): (r: seq<Option<Answer>>)
    ensures |r| == n
    ensures forall i :: 0 <= i < n ==> (r[i] == None <==> i !in selected)
    ensures forall i :: 0 <= i < n && i in selected ==> r[i] == Some(selected[i])
  {
    seq(n, i requires 0 <= i < n => RadioAnswer(selected, i))
  }

  /** The loop that renders one radio per question and appends its value. */
  method CollectResponses(questions: seq<string>, selected: map<nat, Answer>)
    returns (responses: seq<Option<Answer>>)
    ensures responses == RadioResponses(|questions|, selected)
  {
    responses := [];
    for i := 0 to |questions|
      invariant |responses| == i
      invariant forall k :: 0 <= k < i ==> responses[k] == RadioAnswer(selected, k)
    {
      responses := responses + [RadioAnswer(selected, i)];
    }
  }

  /**
   * `None in responses`: refuses a list with a gap; otherwise the answers
   * themselves, in question order.
   */
  function Gate(responses: seq<Option<Answer>>): (r: Option<seq<Answer>>)
    ensures r.None? <==> exists i :: 0 <= i < |responses| && responses[i].None?
    ensures r.Some? ==> |r.value| == |responses|
    ensures r.Some? ==> forall i :: 0 <= i < |responses| ==> responses[i] == Some(r.value[i])
  {
    if None in responses then None
    else Some(seq(|responses|, i requires 0 <= i < |responses| => responses[i].value))
  }

  /** A complete answer vector as the page's responses list. */
  function Lift(answers: seq<Answer>): (r: seq<Option<Answer>>)
    ensures |r| == |answers|
  {
    seq(|answers|, i requires 0 <= i < |answers| => Some(answers[i]))
  }

  /** A complete answer vector passes the gate unchanged. */
  lemma GateLift(answers: seq<Answer>)
    ensures Gate(Lift(answers)) == Some(answers)
  {
    var g := Gate(Lift(answers));
    assert g.Some?;
    assert g.value == answers;
  }

  /** The "Get Assessment Results" handler. */
  function Submit(responses: seq<Option<Answer>>, predict: seq<Answer> -> int, mapping: map<int, string>)
    : (r: Outcome)
    ensures r.Incomplete? <==> exists i :: 0 <= i < |responses| && responses[i] == None
    ensures r.Incomplete? ==> r.message == IncompleteMessage
    ensures r.Assessed? ==> r.assessment.category in mapping.Values
    ensures r.Assessed? ==> r.assessment.scores.stress <= 9 && r.assessment.scores.anxiety <= 9
    ensures r.Assessed? && |responses| <= QuestionCount ==> r.assessment.scores.depression <= 9
  {
    match Gate(responses)
    case None => Incomplete(IncompleteMessage)
    case Some(answers) =>
      var code := predict(answers);
      match Decode(mapping, code)
      case None => UnknownCode(code)
      case Some(category) =>
        var s := SubScores(answers);
        Assessed(Assessment(category, s, Band(s.stress), Band(s.anxiety), Band(s.depression)))
  }

  /** The collected responses pass the gate exactly when every question has been answered. */
  lemma CollectedPassesGate(n: nat, selected: map<nat, Answer>)
    ensures Gate(RadioResponses(n, selected)).Some? <==> forall i :: 0 <= i < n ==> i in selected
    ensures Gate(RadioResponses(n, selected)).Some? ==>
      forall i :: 0 <= i < n ==> Gate(RadioResponses(n, selected)).value[i] == selected[i]
  {
    var r := RadioResponses(n, selected);
    if forall i :: 0 <= i < n ==> i in selected {
      assert forall i :: 0 <= i < n ==> r[i] == Some(selected[i]);
    } else {
      var i :| 0 <= i < n && i !in selected;
      assert r[i] == None;
    }
  }

  /**
   * With a question unanswered the result is the error message whatever the
   * classifier and the mapping are: no prediction is used.
   */
  lemma IncompleteMakesNoPrediction(
    responses: seq<Option<Answer>>,
    predict1: seq<Answer> -> int, mapping1: map<int, string>,
    predict2: seq<Answer> -> int, mapping2: map<int, string>)
    requires exists i :: 0 <= i < |responses| && responses[i] == None
    ensures Submit(responses, predict1, mapping1) == Incomplete(IncompleteMessage)
    ensures Submit(responses, predict1, mapping1) == Submit(responses, predict2, mapping2)
  {
  }

  /** A complete submission with an in-range code is assessed with that code's category and the answers' scores. */
  lemma SubmitLifted(answers: seq<Answer>, predict: seq<Answer> -> int, categories: seq<string>)
    requires 0 <= predict(answers) < |categories|
    ensures var s := SubScores(answers);
      Submit(Lift(answers), predict, CategoryMapping(categories))
      == Assessed(Assessment(categories[predict(answers)], s, Band(s.stress), Band(s.anxiety), Band(s.depression)))
  {
    GateLift(answers);
  }

  /**
   * A complete nine-answer submission, with a classifier that returns a code
   * of one of the trained categories, is assessed: the category is the one
   * with that code, and each sub-score is the sum of its three answers with
   * its band.
   */
  lemma CompleteSubmission(answers: seq<Answer>, predict: seq<Answer> -> int, categories: seq<string>)
    requires |answers| == QuestionCount
    requires 0 <= predict(answers) < |categories|
    ensures var r := Submit(Lift(answers), predict, CategoryMapping(categories));
      && r.Assessed?
      && r.assessment.category == categories[predict(answers)]
      && r.assessment.scores.stress == answers[0] as int + answers[1] + answers[2]
      && r.assessment.scores.anxiety == answers[3] as int + answers[4] + answers[5]
      && r.assessment.scores.depression == answers[6] as int + answers[7] + answers[8]
      && r.assessment.scores.stress + r.assessment.scores.anxiety + r.assessment.scores.depression
         == Sum(answers)
      && r.assessment.stressBand == Band(r.assessment.scores.stress)
      && r.assessment.anxietyBand == Band(r.assessment.scores.anxiety)
      && r.assessment.depressionBand == Band(r.assessment.scores.depression)
  {
    SubmitLifted(answers, predict, categories);
    SubScoresOfNine(answers);
    SubScoresPartition(answers);
  }

  /** All answers Never: every sub-score 0, every band Low. */
  lemma ExampleAllNever(answers: seq<Answer>, predict: seq<Answer> -> int, categories: seq<string>)
    requires |answers| == QuestionCount && forall i :: 0 <= i < |answers| ==> answers[i] == 0
    requires 0 <= predict(answers) < |categories|
    ensures var r := Submit(Lift(answers), predict, CategoryMapping(categories));
      && r.Assessed?
      && r.assessment.scores == Scores(0, 0, 0)
      && r.assessment.stressBand == r.assessment.anxietyBand == r.assessment.depressionBand == "Low"
  {
    SubmitLifted(answers, predict, categories);
    SubScoresOfNine(answers);
  }

  /** All answers Always: every sub-score 9, every band Very High. */
  lemma ExampleAllAlways(answers: seq<Answer>, predict: seq<Answer> -> int, categories: seq<string>)
    requires |answers| == QuestionCount && forall i :: 0 <= i < |answers| ==> answers[i] == 3
    requires 0 <= predict(answers) < |categories|
    ensures var r := Submit(Lift(answers), predict, CategoryMapping(categories));
      && r.Assessed?
      && r.assessment.scores == Scores(9, 9, 9)
      && r.assessment.stressBand == r.assessment.anxietyBand == r.assessment.depressionBand == "Very High"
  {
    SubmitLifted(answers, predict, categories);
    SubScoresOfNine(answers);
  }

  /** [1,2,1, 0,0,1, 2,2,3]: stress 4 Moderate, anxiety 1 Low, depression 7 High. */
  lemma ExampleMixed(answers: seq<Answer>, predict: seq<Answer> -> int, categories: seq<string>)
    requires answers == [1, 2, 1, 0, 0, 1, 2, 2, 3]
    requires 0 <= predict(answers) < |categories|
    ensures var r := Submit(Lift(answers), predict, CategoryMapping(categories));
      && r.Assessed?
      && r.assessment.scores == Scores(4, 1, 7)
      && r.assessment.stressBand == "Moderate"
      && r.assessment.anxietyBand == "Low"
      && r.assessment.depressionBand == "High"
  {
    SubmitLifted(answers, predict, categories);
    SubScoresOfNine(answers);
  }

  /** A classifier code that is not a trained category's code is a KeyError, and nothing is shown. */
  lemma UnknownCodeShowsNothing(answers: seq<Answer>, predict: seq<Answer> -> int, categories: seq<string>)
    requires predict(answers) < 0 || |categories| <= predict(answers)
    ensures Submit(Lift(answers), predict, CategoryMapping(categories)) == UnknownCode(predict(answers))
  {
    GateLift(answers);
  }
}
