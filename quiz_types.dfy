/** The enums and records the quiz engine manipulates. */
module QuizTypes {
  import opened Wrappers

  /** `DifficultyLevel`: the three tiers. */
  datatype Difficulty = Easy | Medium | Hard

  /** The label each tier carries in requests and in the country bank. */
  function DifficultyLabel(d: Difficulty): string {
    match d
    case Easy => "fácil"
    case Medium => "médio"
    case Hard => "difícil"
  }

  /** `Object.values(DifficultyLevel).includes(label)`, returning the tier found. */
  function ParseDifficulty(text: string): (r: Option<Difficulty>)
    ensures r.Some? <==> text in {"fácil", "médio", "difícil"}
    ensures r.Some? ==> DifficultyLabel(r.value) == text
  {
    if text == "fácil" then Some(Easy)
    else if text == "médio" then Some(Medium)
    else if text == "difícil" then Some(Hard)
    else None
  }

  /** The three labels are distinct, so a label names one tier and every tier is recognised. */
  lemma DifficultyLabelRoundTrip(d: Difficulty)
    ensures ParseDifficulty(DifficultyLabel(d)) == Some(d)
  {
  }

  /** `HintType`: the two kinds of hint. */
  datatype HintKind = EliminateOption | ShowCuriosity

  function HintLabel(h: HintKind): string {
    match h
    case EliminateOption => "eliminar_alternativa"
    case ShowCuriosity => "mostrar_curiosidade"
  }

  /** Recognises a hint label. */
  function ParseHintKind(text: string): (r: Option<HintKind>)
    ensures r.Some? <==> text in {"eliminar_alternativa", "mostrar_curiosidade"}
    ensures r.Some? ==> HintLabel(r.value) == text
  {
    if text == "eliminar_alternativa" then Some(EliminateOption)
    else if text == "mostrar_curiosidade" then Some(ShowCuriosity)
    else None
  }

  lemma HintLabelRoundTrip(h: HintKind)
    ensures ParseHintKind(HintLabel(h)) == Some(h)
  {
  }

  /** A row of the country bank; its tier is the label as written in the bank. */
  datatype Country = Country(country: string, capital: string, difficulty: string, curiosity: string)

  function CapitalOf(c: Country): string { c.capital }

  function CountryNameOf(c: Country): string { c.country }

  datatype QuizConfiguration = QuizConfiguration(
    nivelDificuldade: Difficulty,
    quantidadePerguntas: int,
    idSessao: string,
    dicasDisponiveis: int)

  /** A question; `curiosidade` is `None` where the source has `null`. */
  datatype QuizQuestion = QuizQuestion(
    idPergunta: nat,
    pais: string,
    capitalCorreta: string,
    alternativas: seq<string>,
    tempoRestante: nat,
    progresso: string,
    curiosidade: Option<string>)

  datatype QuizAnswer = QuizAnswer(
    respostaSelecionada: string,
    respostaCorreta: bool,
    pontosObtidos: nat,
    mensagemFeedback: string)

  /**
   * The result of a finished quiz. `percentualAcertos` is the percentage in tenths
   * (`parseFloat(x.toFixed(1))` times ten); `None` stands for `NaN`.
   */
  datatype QuizResult = QuizResult(
    pontuacaoTotal: int,
    totalAcertos: nat,
    totalErros: nat,
    percentualAcertos: Option<nat>,
    mensagemDesempenho: string,
    dataHoraConclusao: string)

  /** What `quizRequestHint` returns: `{ curiosidade }`, `{ alternativas }` or `{}`. */
  datatype QuizHint = Curiosity(curiosidade: string) | Alternatives(alternativas: seq<string>) | NoHint

  /** The errors the engine throws, one per distinct message. */
  datatype QuizError =
    | InvalidQuantity
    | InvalidDifficulty
    | InsufficientCountries
    | SessionNotFound
    | QuizCompleted
    | NoHintsAvailable
    | QuizNotCompleted
      /** The `TypeError` of reading a field of the missing question after the last one. */
    | CurrentQuestionMissing

  /** The question counts a quiz may have. */
  predicate ValidQuantity(q: int) { q in {5, 10, 15, 20} }
}
