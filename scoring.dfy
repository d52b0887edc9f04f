/** Points per tier, the answer record of a submission, and the totals of `quizGetResult`. */
module Scoring {
  import opened Wrappers
  import opened Seqs
  import opened QuizTypes

  /** `getPointsForDifficulty`: the points a correct answer earns in each tier. */
  function GetPointsForDifficulty(d: Difficulty): (points: nat)
    ensures points in {5, 10, 15}
    ensures d == Easy ==> points == 5
    ensures d == Medium ==> points == 10
    ensures d == Hard ==> points == 15
  {
    match d
    case Easy => 5
    case Medium => 10
    case Hard => 15
  }

  /** Harder tiers pay strictly more. */
  lemma PointsRiseWithDifficulty()
    ensures GetPointsForDifficulty(Easy) < GetPointsForDifficulty(Medium) < GetPointsForDifficulty(Hard)
  {
  }

  const CorrectFeedback: string := "Correto!"

  const IncorrectFeedbackPrefix: string := "Incorreto! A resposta correta é: "

  /** The answer record `quizSubmitAnswer` stores and returns for `selected` on question `q` of tier `d`. */
  function AnswerFor(q: QuizQuestion, selected: string, d: Difficulty): (a: QuizAnswer)
    ensures a.respostaSelecionada == selected
    ensures a.respostaCorreta <==> selected == q.capitalCorreta
    ensures a.pontosObtidos == if a.respostaCorreta then GetPointsForDifficulty(d) else 0
    ensures a.pontosObtidos in {0, 5, 10, 15}
    ensures a.respostaCorreta ==> a.mensagemFeedback == CorrectFeedback
    ensures !a.respostaCorreta ==>
      |a.mensagemFeedback| == |IncorrectFeedbackPrefix| + |q.capitalCorreta|
      && a.mensagemFeedback[|IncorrectFeedbackPrefix|..] == q.capitalCorreta
  {
    var isCorrect := selected == q.capitalCorreta;
    var points := if isCorrect then GetPointsForDifficulty(d) else 0;
    QuizAnswer(
      selected,
      isCorrect,
      points,
      if isCorrect then CorrectFeedback else IncorrectFeedbackPrefix + q.capitalCorreta)
  }

  /** The sum of `pontos_obtidos` over the answers. */
  function TotalPoints(answers: seq<QuizAnswer>): nat {
    if answers == [] then 0 else answers[0].pontosObtidos + TotalPoints(answers[1..])
  }

  /** Appending an answer adds its points to the sum. */
  lemma {:induction false} TotalPointsAppend(answers: seq<QuizAnswer>, a: QuizAnswer)
    ensures TotalPoints(answers + [a]) == TotalPoints(answers) + a.pontosObtidos
  {
    if answers != [] {
      assert (answers + [a])[1..] == answers[1..] + [a];
      TotalPointsAppend(answers[1..], a);
    }
  }

  function IsCorrectAnswer(a: QuizAnswer): bool { a.respostaCorreta }

  /** `answers.filter((a) => a.resposta_correta).length`. */
  function CountCorrect(answers: seq<QuizAnswer>): (n: nat)
    ensures n <= |answers|
  {
    |Filter(answers, IsCorrectAnswer)|
  }

  /** Each answer earns the tier's points when correct and nothing otherwise. */
  ghost predicate PointsFollowTier(answers: seq<QuizAnswer>, d: Difficulty) {
    forall k :: 0 <= k < |answers| ==>
      answers[k].pontosObtidos == if answers[k].respostaCorreta then GetPointsForDifficulty(d) else 0
  }

  /** When every answer is scored by the tier's table, the score is the tier's points per correct answer. */
  lemma {:induction false} ScoreIsCorrectTimesPoints(answers: seq<QuizAnswer>, d: Difficulty)
    requires PointsFollowTier(answers, d)
    ensures TotalPoints(answers) == CountCorrect(answers) * GetPointsForDifficulty(d)
  {
    if answers != [] {
      assert PointsFollowTier(answers[1..], d) by {
        forall k | 0 <= k < |answers[1..]|
          ensures answers[1..][k] == answers[k + 1]
        {
        }
      }
      ScoreIsCorrectTimesPoints(answers[1..], d);
    }
  }

  const Excellent: string := "Excelente!"
  const VeryGood: string := "Muito bom!"
  const GoodJob: string := "Bom trabalho!"
  const KeepPracticing: string := "Continue praticando!"

  /**
   * The performance message for `correct` right answers out of `total`, the bands tried from
   * the highest down; 0 out of 0 is `NaN` in the source, which fails every comparison.
   */
  function PerformanceMessage(correct: nat, total: nat): (m: string)
    requires correct <= total
    ensures m == Excellent <==> total > 0 && 100 * correct >= 90 * total
    ensures m == VeryGood <==> total > 0 && 70 * total <= 100 * correct < 90 * total
    ensures m == GoodJob <==> total > 0 && 50 * total <= 100 * correct < 70 * total
    ensures m == KeepPracticing <==> total == 0 || 100 * correct < 50 * total
  {
    if total == 0 then KeepPracticing
    else if 100 * correct >= 90 * total then Excellent
    else if 100 * correct >= 70 * total then VeryGood
    else if 100 * correct >= 50 * total then GoodJob
    else KeepPracticing
  }

  /** The rank of a message: 0 for the lowest band, 3 for the highest. */
  function MessageRank(m: string): nat {
    if m == Excellent then 3 else if m == VeryGood then 2 else if m == GoodJob then 1 else 0
  }

  /** More right answers never earn a lower band. */
  lemma PerformanceMonotone(c1: nat, c2: nat, total: nat)
    requires c1 <= c2 <= total
    ensures MessageRank(PerformanceMessage(c1, total)) <= MessageRank(PerformanceMessage(c2, total))
  {
  }

  /**
   * `parseFloat(((correct / total) * 100).toFixed(1))` in tenths of a percent: the exact percentage
   * rounded to one decimal, halves upward; `None` for `NaN`.
   */
  function PercentTenths(correct: nat, total: nat): (r: Option<nat>)
    requires correct <= total
    ensures r.None? <==> total == 0
    ensures r.Some? ==> 2 * total * r.value <= 2000 * correct + total < 2 * total * (r.value + 1)
    ensures r.Some? ==> r.value <= 1000
  {
    if total == 0 then None
    else
      var q := (2000 * correct + total) / (2 * total);
      DivBounds(2000 * correct + total, 2 * total);
      Some(q)
  }

  lemma DivBounds(x: nat, y: nat)
    requires y > 0
    ensures y * (x / y) <= x < y * (x / y + 1)
  {
  }

  /** Eight right answers out of ten: 80.0 percent and the second band. */
  lemma EightOfTen()
    ensures PercentTenths(8, 10) == Some(800)
    ensures PerformanceMessage(8, 10) == VeryGood
  {
  }

  /** The totals `quizGetResult` reports for a finished session; `now` stands for the clock read. */
  function ComputeResult(answers: seq<QuizAnswer>, score: int, now: string): (r: QuizResult)
    ensures r.totalAcertos == CountCorrect(answers)
    ensures r.totalAcertos + r.totalErros == |answers|
    ensures r.pontuacaoTotal == score
    ensures r.mensagemDesempenho == PerformanceMessage(r.totalAcertos, |answers|)
    ensures r.percentualAcertos == PercentTenths(r.totalAcertos, |answers|)
    ensures r.dataHoraConclusao == now
  {
    var totalAcertos := CountCorrect(answers);
    var totalErros := |answers| - totalAcertos;
    QuizResult(
      score,
      totalAcertos,
      totalErros,
      PercentTenths(totalAcertos, |answers|),
      PerformanceMessage(totalAcertos, |answers|),
      now)
  }
}
