/**
 * The scoring shared by both entry scripts: nine Likert answers split into
 * three consecutive triples (stress, anxiety, depression), each triple summed,
 * and each sum shown with a severity band.
 */
module Scoring {

  /** One answer on the rating scale: 0 Never, 1 Sometimes, 2 Often, 3 Always. */
  type Answer = x: int | 0 <= x <= 3

  /** The questions, both pages ask them in this order: three stress, three anxiety, three depression. */
  const QuestionTexts: seq<string> := [
    "I found it difficult to relax or wind down.",
    "I felt overwhelmed and unable to cope with daily challenges.",
    "I had frequent headaches, muscle tension, or trouble sleeping due to stress.",
    "I felt excessively worried and found it hard to control my thoughts.",
    "I experienced sudden fear, shortness of breath, or felt like something bad was going to happen.",
    "I avoided situations, people, or places because they made me feel anxious.",
    "I felt persistently sad, empty, or hopeless.",
    "I lost interest or pleasure in activities I used to enjoy.",
    "I felt like a failure, worthless, or excessively guilty."
  ]

  /** Nine questions, three per sub-scale. */
  const QuestionCount := 9

  /** Both pages collect one answer per question, and the classifier takes one feature per answer. */
  lemma QuestionListSize()
    ensures |QuestionTexts| == QuestionCount == |FeatureColumns|
  {
  }

  /** The classifier's feature columns, in the order the answers are fed to it. */
  const FeatureColumns: seq<string> := [
    "Stress_Q1", "Stress_Q2", "Stress_Q3",
    "Anxiety_Q1", "Anxiety_Q2", "Anxiety_Q3",
    "Depression_Q1", "Depression_Q2", "Depression_Q3"
  ]

  /** The labels a sub-score is shown with, indexed by band. */
  const BandLabels: seq<string> := ["Low", "Moderate", "High", "Very High"]

  datatype Scores = Scores(stress: nat, anxiety: nat, depression: nat)

  datatype SubScale = Stress | Anxiety | Depression

  function Min(a: int, b: int): int { if a < b then a else b }

  /** Python's `sum` over a list of answers. */
  function Sum(s: seq<Answer>): (r: nat)
    ensures r <= 3 * |s|
  {
    if s == [] then 0 else s[0] + Sum(s[1..])
  }

  lemma {:induction false} SumConcat(a: seq<Answer>, b: seq<Answer>)
    ensures Sum(a + b) == Sum(a) + Sum(b)
  {
    if a == [] {
      assert a + b == b;
    } else {
      assert (a + b)[1..] == a[1..] + b;
      SumConcat(a[1..], b);
    }
  }

  /**
   * Python's `s[lo:hi]` for non-negative bounds: a bound past the end is
   * clamped to the length, and an empty slice results when hi <= lo.
   */
  function Slice(s: seq<Answer>, lo: nat, hi: nat): (r: seq<Answer>)
    ensures lo <= hi <= |s| ==> r == s[lo..hi]
    ensures |r| == if Min(hi, |s|) <= Min(lo, |s|) then 0 else Min(hi, |s|) - Min(lo, |s|)
    ensures forall k :: 0 <= k < |r| ==> lo + k < |s| && r[k] == s[lo + k]
  {
    var l := Min(lo, |s|);
    var h := if hi < l then l else Min(hi, |s|);
    s[l..h]
  }

  /** `sum(r[:3])`, `sum(r[3:6])` and `sum(r[6:])`. */
  function SubScores(r: seq<Answer>): (sc: Scores)
    ensures sc.stress <= 9 && sc.anxiety <= 9
    ensures |r| <= QuestionCount ==> sc.depression <= 9
  {
    Scores(Sum(Slice(r, 0, 3)), Sum(Slice(r, 3, 6)), Sum(Slice(r, 6, |r|)))
  }

  /** The three slices cover the response list exactly once, so the sub-scores add up to the total. */
  lemma SubScoresPartition(r: seq<Answer>)
    ensures SubScores(r).stress + SubScores(r).anxiety + SubScores(r).depression == Sum(r)
  {
    var a, b, c := Slice(r, 0, 3), Slice(r, 3, 6), Slice(r, 6, |r|);
    assert a + b + c == r;
    SumConcat(a, b);
    SumConcat(a + b, c);
  }

  /** On the nine-answer vector each sub-score is the sum of its own three answers. */
  lemma SubScoresOfNine(r: seq<Answer>)
    requires |r| == QuestionCount
    ensures SubScores(r).stress == r[0] as int + r[1] + r[2]
    ensures SubScores(r).anxiety == r[3] as int + r[4] + r[5]
    ensures SubScores(r).depression == r[6] as int + r[7] + r[8]
  {
    SumOfThree(r[0..3]);
    SumOfThree(r[3..6]);
    SumOfThree(r[6..9]);
  }

  lemma SumOfThree(t: seq<Answer>)
    requires |t| == 3
    ensures Sum(t) == t[0] as int + t[1] + t[2]
  {
    assert Sum(t[2..]) == t[2] by { assert t[2..][1..] == []; }
    assert t[1..][1..] == t[2..];
  }

  /** The sub-scale of answer i, by the bounds of the slices `[:3]`, `[3:6]`, `[6:]`. */
  function SubScaleOf(i: nat): (k: SubScale)
  {
    if i < 3 then Stress else if i < 6 then Anxiety else Depression
  }

  function SubScaleName(k: SubScale): string
  {
    match k
    case Stress => "Stress"
    case Anxiety => "Anxiety"
    case Depression => "Depression"
  }

  /**
   * The feature columns list three stress, three anxiety and three depression
   * questions: column i is named after the sub-scale of answer i, and that is
   * the sub-score whose slice holds answer i.
   */
  lemma FeatureOrderMatchesSlices(r: seq<Answer>, i: nat)
    requires |r| == QuestionCount && i < |r|
    ensures |FeatureColumns| == QuestionCount
    ensures FeatureColumns[i] == SubScaleName(SubScaleOf(i)) + "_Q" + [('1' as int + i % 3) as char]
    ensures SubScaleOf(i) == Stress ==> Slice(r, 0, 3)[i] == r[i]
    ensures SubScaleOf(i) == Anxiety ==> Slice(r, 3, 6)[i - 3] == r[i]
    ensures SubScaleOf(i) == Depression ==> Slice(r, 6, |r|)[i - 6] == r[i]
  {
  }

  /** `min(3, score // 3)`: the index into BandLabels. */
  function BandIndex(score: nat): (k: nat)
    ensures k < |BandLabels|
    ensures k == 0 <==> score <= 2
    ensures k == 3 <==> 9 <= score
  {
    Min(3, score / 3)
  }

  /** The severity label shown under a sub-score. */
  function Band(score: nat): (caption: string)
    ensures caption == "Low" <==> score <= 2
    ensures caption == "Moderate" <==> 3 <= score <= 5
    ensures caption == "High" <==> 6 <= score <= 8
    ensures caption == "Very High" <==> 9 <= score
  {
    BandLabels[BandIndex(score)]
  }

  /** A higher sub-score never gets a lower band. */
  lemma BandMonotone(s: nat, t: nat)
    requires s <= t
    ensures BandIndex(s) <= BandIndex(t)
  {
  }
}
