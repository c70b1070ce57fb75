/**
 * The slider variant of the page: one 0..3 slider per question starting at
 * 0, so the answer vector is always complete; on "Get Prediction" the
 * classifier's code is decoded through the stored mapping and the three
 * sub-scores are printed (no bands).
 */
module TrainModel {
  import opened Wrappers
  import opened Scoring
  import opened Categories

  /** What the page prints after a prediction. */
  datatype Prediction =
    | UnknownCode(code: int)      // category_mapping[prediction] raised KeyError
    | Predicted(category: string, scores: Scores)

  /** The slider of question i: the position it was moved to, or its default 0. */
  function SliderAnswer(moved: map<nat, Answer>, i: nat): (a: Answer)
    ensures i in moved ==> a == moved[i]
    ensures i !in moved ==> a == 0
  {
    if i in moved then moved[i] else 0
  }

  /** The responses list the page builds for n questions. */
  function SliderResponses(n: nat, moved: map<nat, Answer>): (r: seq<Answer>)
    ensures |r| == n
    ensures forall i :: 0 <= i < n ==> r[i] == (if i in moved then moved[i] else 0)
  {
    seq(n, i requires 0 <= i < n => SliderAnswer(moved, i))
  }

  /** The loop that renders one slider per question and appends its value. */
  method CollectResponses(questions: seq<string>, moved: map<nat, Answer>)
    returns (responses: seq<Answer>)
    ensures responses == SliderResponses(|questions|, moved)
  {
    responses := [];
    for i := 0 to |questions|
      invariant |responses| == i
      invariant forall k :: 0 <= k < i ==> responses[k] == SliderAnswer(moved, k)
    {
      responses := responses + [SliderAnswer(moved, i)];
    }
  }

  /** The "Get Prediction" handler: decode the classifier's code, then the three sums. */
  function Predict(responses: seq<Answer>, predict: seq<Answer> -> int, mapping: map<int, string>)
    : (r: Prediction)
    ensures r.UnknownCode? <==> predict(responses) !in mapping
    ensures r.Predicted? ==> r.category in mapping.Values
    ensures r.Predicted? ==> r.scores.stress <= 9 && r.scores.anxiety <= 9
    ensures r.Predicted? && |responses| <= QuestionCount ==> r.scores.depression <= 9
  {
    var code := predict(responses);
    match Decode(mapping, code)
    case None => UnknownCode(code)
    case Some(category) => Predicted(category, SubScores(responses))
  }

  /**
   * With no slider moved, the list has one answer per question, every one
   * the default 0, so the answers add up to 0.
   */
  lemma {:induction false} UntouchedSlidersScoreZero(n: nat)
    ensures |SliderResponses(n, map[])| == n
    ensures Sum(SliderResponses(n, map[])) == 0
  {
    if n > 0 {
      UntouchedSlidersScoreZero(n - 1);
      assert SliderResponses(n, map[]) == SliderResponses(n - 1, map[]) + [0];
      SumConcat(SliderResponses(n - 1, map[]), [0]);
    }
  }

  /**
   * With the classifier returning the code of a trained category, the page
   * prints that category and three sub-scores, each the sum of its three
   * answers, in [0, 9], together equal to the sum of all nine answers.
   */
  lemma PredictionReport(moved: map<nat, Answer>, predict: seq<Answer> -> int, categories: seq<string>)
    requires 0 <= predict(SliderResponses(QuestionCount, moved)) < |categories|
    ensures var a := SliderResponses(QuestionCount, moved);
      var r := Predict(a, predict, CategoryMapping(categories));
      && r.Predicted?
      && r.category == categories[predict(a)]
      && r.scores.stress == a[0] as int + a[1] + a[2]
      && r.scores.anxiety == a[3] as int + a[4] + a[5]
      && r.scores.depression == a[6] as int + a[7] + a[8]
      && r.scores.stress <= 9 && r.scores.anxiety <= 9 && r.scores.depression <= 9
      && r.scores.stress + r.scores.anxiety + r.scores.depression == Sum(a)
  {
    var a := SliderResponses(QuestionCount, moved);
    SubScoresOfNine(a);
    SubScoresPartition(a);
  }
}
