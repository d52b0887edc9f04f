/** The session engine of `quizLogic.ts`: the map of active sessions and its five operations. */
module QuizEngine {
  import opened Wrappers
  import opened Seqs
  import opened Shuffle
  import opened Decimal
  import opened QuizTypes
  import opened QuestionGenerator
  import opened Scoring

  /** Hints a new session starts with. */
  const InitialHints: int := 3

  function IsNot(x: string): string -> bool {
    (alt: string) => alt != x
  }

  /** `alternativas.filter((alt) => alt !== capital_correta)`. */
  function IncorrectOptions(options: seq<string>, correct: string): (r: seq<string>)
    ensures |r| <= |options|
    ensures forall x :: x in r ==> x in options && x != correct
  {
    Filter(options, IsNot(correct))
  }

  /**
   * The options an elimination hint leaves: a wrong option picked with `draw` is dropped, with
   * every copy of it. With no wrong option the pick is `undefined`, which no option equals,
   * so nothing is dropped.
   */
  function OptionsAfterElimination(options: seq<string>, correct: string, draw: Unit): (r: seq<string>)
    ensures IsSubseq(r, options)
    ensures correct in r <==> correct in options
    ensures |IncorrectOptions(options, correct)| == 0 ==> r == options
    ensures |IncorrectOptions(options, correct)| > 0 ==>
      exists o :: o in options && o != correct && o !in r && |r| == |options| - multiset(options)[o] &&
        forall x :: x in options && x != o ==> x in r
    ensures Distinct(options) && |IncorrectOptions(options, correct)| > 0 ==> |r| == |options| - 1
  {
    var incorrect := IncorrectOptions(options, correct);
    if |incorrect| == 0 then
      IsSubseqReflexive(options);
      options
    else
      var toRemove := incorrect[RandomIndex(draw, |incorrect|)];
      var r := Filter(options, IsNot(toRemove));
      FilterIsSubseq(options, IsNot(toRemove));
      FilterMultiset(options, IsNot(toRemove), correct);
      EliminationKeepsOthers(options, toRemove);
      EliminationOfDistinct(options, toRemove);
      FilterOutCount(options, toRemove);
      r
  }

  /** On a question with four distinct options, an elimination leaves three, the correct one among them. */
  lemma EliminationLeavesThree(options: seq<string>, correct: string, draw: Unit)
    requires |options| == 4 && Distinct(options) && correct in options
    ensures |OptionsAfterElimination(options, correct, draw)| == 3
    ensures correct in OptionsAfterElimination(options, correct, draw)
  {
    var k := if options[0] != correct then 0 else 1;
    assert options[k] != correct by {
      if k == 1 {
        assert options[0] != options[1];
      }
    }
    FilterMultiset(options, IsNot(correct), options[k]);
    assert options[k] in IncorrectOptions(options, correct);
  }

  lemma EliminationKeepsOthers(options: seq<string>, toRemove: string)
    ensures forall x :: x in options && x != toRemove ==> x in Filter(options, IsNot(toRemove))
  {
    forall x | x in options && x != toRemove
      ensures x in Filter(options, IsNot(toRemove))
    {
      FilterMultiset(options, IsNot(toRemove), x);
    }
  }

  /** Filtering out a value removes as many entries as it has copies. */
  lemma {:induction false} FilterOutCount(options: seq<string>, toRemove: string)
    ensures |Filter(options, IsNot(toRemove))| == |options| - multiset(options)[toRemove]
  {
    if options != [] {
      FilterOutCount(options[1..], toRemove);
      assert options == [options[0]] + options[1..];
    }
  }

  /** Among pairwise distinct options, dropping one that is present shortens them by one. */
  lemma EliminationOfDistinct(options: seq<string>, toRemove: string)
    requires toRemove in options
    ensures Distinct(options) ==> |Filter(options, IsNot(toRemove))| == |options| - 1
  {
    if !Distinct(options) {
      return;
    }
    var i :| 0 <= i < |options| && options[i] == toRemove;
    forall k | 0 <= k < |options| && k != i
      ensures options[k] != toRemove
    {
      if k < i {
        assert options[k] != options[i];
      } else {
        assert options[i] != options[k];
      }
    }
    FilterOneRejected(options, IsNot(toRemove), i);
  }

  /** `QuizSession`: the state of one quiz, updated in place by answers and hints. */
  class QuizSession {
    var configuration: QuizConfiguration
    var questions: seq<QuizQuestion>
    var currentQuestionIndex: nat
    var answers: seq<QuizAnswer>
    var score: int

    /**
     * One answer per question before the cursor, a running score equal to the points of the
     * answers, each scored by the tier's table, 0 to 3 hints, and the correct capital among
     * the options of every question.
     */
    ghost predicate Valid()
      reads this
    {
      && |answers| == currentQuestionIndex <= |questions|
      && |questions| == configuration.quantidadePerguntas
      && ValidQuantity(configuration.quantidadePerguntas)
      && 0 <= configuration.dicasDisponiveis <= InitialHints
      && score == TotalPoints(answers)
      && PointsFollowTier(answers, configuration.nivelDificuldade)
      && forall k :: 0 <= k < |questions| ==> questions[k].capitalCorreta in questions[k].alternativas
    }

    constructor (configuration: QuizConfiguration, questions: seq<QuizQuestion>)
      ensures this.configuration == configuration && this.questions == questions
      ensures currentQuestionIndex == 0 && answers == [] && score == 0
    {
      this.configuration := configuration;
      this.questions := questions;
      currentQuestionIndex := 0;
      answers := [];
      score := 0;
    }

    /** Stores the answer to the current question, adds its points and moves to the next question. */
    method RecordAnswer(answer: QuizAnswer)
      requires Valid() && currentQuestionIndex < |questions|
      requires answer.pontosObtidos ==
        if answer.respostaCorreta then GetPointsForDifficulty(configuration.nivelDificuldade) else 0
      modifies this
      ensures Valid()
      ensures answers == old(answers) + [answer]
      ensures score == old(score) + answer.pontosObtidos
      ensures currentQuestionIndex == old(currentQuestionIndex) + 1
      ensures questions == old(questions) && configuration == old(configuration)
    {
      TotalPointsAppend(answers, answer);
      answers := answers + [answer];
      score := score + answer.pontosObtidos;
      currentQuestionIndex := currentQuestionIndex + 1;
    }

    /** `session.configuration.dicas_disponiveis--`. */
    method SpendHint()
      requires Valid() && configuration.dicasDisponiveis > 0
      modifies this
      ensures Valid()
      ensures configuration == old(configuration).(dicasDisponiveis := old(configuration.dicasDisponiveis) - 1)
      ensures questions == old(questions) && currentQuestionIndex == old(currentQuestionIndex)
      ensures answers == old(answers) && score == old(score)
    {
      configuration := configuration.(dicasDisponiveis := configuration.dicasDisponiveis - 1);
    }

    /** `currentQuestion.alternativas = newAlternatives` on the question at `index`. */
    method ReplaceOptions(index: nat, alternativas: seq<string>)
      requires Valid() && index < |questions|
      requires questions[index].capitalCorreta in alternativas
      modifies this
      ensures Valid()
      ensures questions == old(questions)[index := old(questions[index]).(alternativas := alternativas)]
      ensures configuration == old(configuration) && currentQuestionIndex == old(currentQuestionIndex)
      ensures answers == old(answers) && score == old(score)
    {
      questions := questions[index := questions[index].(alternativas := alternativas)];
    }
  }

  /** The quiz service: the country bank and `activeSessions`, the map from session id to session. */
  class QuizService {
    const countriesData: seq<Country>
    var activeSessions: map<string, QuizSession>

    /** No two ids share a session object, each session is consistent and knows its own id. */
    ghost predicate Valid()
      reads this, activeSessions.Values
    {
      && (forall a, b :: a in activeSessions && b in activeSessions && a != b ==> activeSessions[a] != activeSessions[b])
      && forall id :: id in activeSessions ==>
           activeSessions[id].Valid() && activeSessions[id].configuration.idSessao == id
    }

    constructor (countriesData: seq<Country>)
      ensures Valid()
      ensures this.countriesData == countriesData && activeSessions == map[]
    {
      this.countriesData := countriesData;
      activeSessions := map[];
    }

    /**
     * `quizCreate`: validates the count and the tier, generates the questions and stores a new
     * session under `idSessao` (the fresh id `uuidv4()` returns).
     */
    method QuizCreate(nivelDificuldade: string, quantidadePerguntas: int, idSessao: string, draws: Draws)
      returns (r: Result<QuizConfiguration, QuizError>)
      requires Valid()
      requires idSessao !in activeSessions
      modifies this
      ensures Valid()
      ensures !ValidQuantity(quantidadePerguntas) ==> r == Err(InvalidQuantity)
      ensures ValidQuantity(quantidadePerguntas) && ParseDifficulty(nivelDificuldade).None? ==> r == Err(InvalidDifficulty)
      ensures ValidQuantity(quantidadePerguntas) && ParseDifficulty(nivelDificuldade).Some? ==>
        var d := ParseDifficulty(nivelDificuldade).value;
        var generated := GeneratedQuestions(countriesData, d, quantidadePerguntas, draws);
        if generated.Err? then r == Err(InsufficientCountries)
        else
          && r == Ok(QuizConfiguration(d, quantidadePerguntas, idSessao, InitialHints))
          && idSessao in activeSessions
          && fresh(activeSessions[idSessao])
          && activeSessions == old(activeSessions)[idSessao := activeSessions[idSessao]]
          && activeSessions[idSessao].configuration == r.value
          && activeSessions[idSessao].questions == generated.value
          && activeSessions[idSessao].currentQuestionIndex == 0
          && activeSessions[idSessao].answers == []
          && activeSessions[idSessao].score == 0
      ensures r.Err? ==> activeSessions == old(activeSessions)
    {
      if !ValidQuantity(quantidadePerguntas) {
        return Err(InvalidQuantity);
      }
      var difficulty := ParseDifficulty(nivelDificuldade);
      if difficulty.None? {
        return Err(InvalidDifficulty);
      }
      var configuration := QuizConfiguration(difficulty.value, quantidadePerguntas, idSessao, InitialHints);
      var questions := GenerateQuestions(countriesData, difficulty.value, quantidadePerguntas, draws);
      if questions.Err? {
        return Err(questions.error);
      }
      GeneratedQuestionsSpec(countriesData, difficulty.value, quantidadePerguntas, draws);
      var session := new QuizSession(configuration, questions.value);
      activeSessions := activeSessions[idSessao := session];
      return Ok(configuration);
    }

    /** `quizGetQuestion`: the current question with its curiosity withheld. */
    function QuizGetQuestion(idSessao: string): (r: Result<QuizQuestion, QuizError>)
      requires Valid()
      reads this, activeSessions.Values
      ensures idSessao !in activeSessions ==> r == Err(SessionNotFound)
      ensures idSessao in activeSessions ==>
        var s := activeSessions[idSessao];
        if s.currentQuestionIndex >= |s.questions| then r == Err(QuizCompleted)
        else r == Ok(s.questions[s.currentQuestionIndex].(curiosidade := None))
      ensures r.Ok? ==> r.value.curiosidade.None? && r.value.capitalCorreta in r.value.alternativas
    {
      if idSessao !in activeSessions then Err(SessionNotFound)
      else
        var session := activeSessions[idSessao];
        if session.currentQuestionIndex >= |session.questions| then Err(QuizCompleted)
        else Ok(session.questions[session.currentQuestionIndex].(curiosidade := None))
    }

    /** `quizSubmitAnswer`: scores the current question and moves the cursor past it. */
    method QuizSubmitAnswer(idSessao: string, respostaSelecionada: string) returns (r: Result<QuizAnswer, QuizError>)
      requires Valid()
      modifies if idSessao in activeSessions then {activeSessions[idSessao]} else {}
      ensures Valid()
      ensures activeSessions == old(activeSessions)
      ensures idSessao !in activeSessions ==> r == Err(SessionNotFound)
      ensures idSessao in activeSessions ==>
        var s := activeSessions[idSessao];
        if old(s.currentQuestionIndex) >= old(|s.questions|) then r == Err(QuizCompleted) && unchanged(s)
        else
          && r == Ok(AnswerFor(old(s.questions[s.currentQuestionIndex]), respostaSelecionada, s.configuration.nivelDificuldade))
          && s.answers == old(s.answers) + [r.value]
          && s.score == old(s.score) + r.value.pontosObtidos
          && s.currentQuestionIndex == old(s.currentQuestionIndex) + 1
          && s.questions == old(s.questions)
          && s.configuration == old(s.configuration)
    {
      if idSessao !in activeSessions {
        return Err(SessionNotFound);
      }
      var session := activeSessions[idSessao];
      if session.currentQuestionIndex >= |session.questions| {
        return Err(QuizCompleted);
      }
      var currentQuestion := session.questions[session.currentQuestionIndex];
      var answer := AnswerFor(currentQuestion, respostaSelecionada, session.configuration.nivelDificuldade);
      session.RecordAnswer(answer);
      return Ok(answer);
    }

    /**
     * `quizRequestHint`: spends a hint, then reveals the curiosity or eliminates a wrong option of
     * the current question. There is no completion check: past the last question the question
     * read is `undefined`, the hint is still spent, and the two known kinds then fail.
     */
    method QuizRequestHint(idSessao: string, tipoDica: string, draw: Unit) returns (r: Result<QuizHint, QuizError>)
      requires Valid()
      modifies if idSessao in activeSessions then {activeSessions[idSessao]} else {}
      ensures Valid()
      ensures activeSessions == old(activeSessions)
      ensures idSessao !in activeSessions ==> r == Err(SessionNotFound)
      ensures idSessao in activeSessions ==>
        var s := activeSessions[idSessao];
        if old(s.configuration.dicasDisponiveis) <= 0 then r == Err(NoHintsAvailable) && unchanged(s)
        else
          && s.configuration == old(s.configuration).(dicasDisponiveis := old(s.configuration.dicasDisponiveis) - 1)
          && s.currentQuestionIndex == old(s.currentQuestionIndex)
          && s.answers == old(s.answers)
          && s.score == old(s.score)
          && (tipoDica == HintLabel(ShowCuriosity) ==>
                && s.questions == old(s.questions)
                && r == if old(s.currentQuestionIndex) < old(|s.questions|)
                        then Ok(Curiosity(old(s.questions[s.currentQuestionIndex]).curiosidade.GetOr("")))
                        else Err(CurrentQuestionMissing))
          && (tipoDica == HintLabel(EliminateOption) ==>
                if old(s.currentQuestionIndex) < old(|s.questions|) then
                  var q := old(s.questions[s.currentQuestionIndex]);
                  var alternativas := OptionsAfterElimination(q.alternativas, q.capitalCorreta, draw);
                  && r == Ok(Alternatives(alternativas))
                  && s.questions == old(s.questions)[s.currentQuestionIndex := q.(alternativas := alternativas)]
                else r == Err(CurrentQuestionMissing) && s.questions == old(s.questions))
          && (tipoDica != HintLabel(ShowCuriosity) && tipoDica != HintLabel(EliminateOption) ==>
                r == Ok(NoHint) && s.questions == old(s.questions))
    {
      if idSessao !in activeSessions {
        return Err(SessionNotFound);
      }
      var session := activeSessions[idSessao];
      if session.configuration.dicasDisponiveis <= 0 {
        return Err(NoHintsAvailable);
      }
      var index := session.currentQuestionIndex;
      // `session.questions[index]`, which is `undefined` once every question is answered
      var currentQuestion := if index < |session.questions| then Some(session.questions[index]) else None;
      session.SpendHint();

      if tipoDica == HintLabel(ShowCuriosity) {
        if currentQuestion.None? {
          return Err(CurrentQuestionMissing);
        }
        return Ok(Curiosity(currentQuestion.value.curiosidade.GetOr("")));
      }

      if tipoDica == HintLabel(EliminateOption) {
        if currentQuestion.None? {
          return Err(CurrentQuestionMissing);
        }
        var question := currentQuestion.value;
        var newAlternatives := OptionsAfterElimination(question.alternativas, question.capitalCorreta, draw);
        session.ReplaceOptions(index, newAlternatives);
        return Ok(Alternatives(newAlternatives));
      }

      return Ok(NoHint);
    }

    /**
     * `quizGetResult`: once every question is answered, computes the totals and removes the
     * session, so the result can be fetched only once. `now` stands for the clock read.
     */
    method QuizGetResult(idSessao: string, now: string) returns (r: Result<QuizResult, QuizError>)
      requires Valid()
      modifies this
      ensures Valid()
      ensures idSessao !in old(activeSessions) ==> r == Err(SessionNotFound) && activeSessions == old(activeSessions)
      ensures idSessao in old(activeSessions) ==>
        var s := old(activeSessions)[idSessao];
        if s.currentQuestionIndex < |s.questions| then r == Err(QuizNotCompleted) && activeSessions == old(activeSessions)
        else r == Ok(ComputeResult(s.answers, s.score, now)) && activeSessions == old(activeSessions) - {idSessao}
      ensures r.Ok? ==>
        var s := old(activeSessions)[idSessao];
        && idSessao !in activeSessions
        && r.value.totalAcertos + r.value.totalErros == s.configuration.quantidadePerguntas
        && r.value.pontuacaoTotal == r.value.totalAcertos * GetPointsForDifficulty(s.configuration.nivelDificuldade)
        && r.value.percentualAcertos.Some?
    {
      if idSessao !in activeSessions {
        return Err(SessionNotFound);
      }
      var session := activeSessions[idSessao];
      if session.currentQuestionIndex < |session.questions| {
        return Err(QuizNotCompleted);
      }
      var result := ComputeResult(session.answers, session.score, now);
      ScoreIsCorrectTimesPoints(session.answers, session.configuration.nivelDificuldade);
      activeSessions := activeSessions - {idSessao};
      return Ok(result);
    }
  }

  /** A finished quiz yields its result once; asking again finds no session. */
  method ResultIsOneShot(service: QuizService, idSessao: string, now: string)
    returns (first: Result<QuizResult, QuizError>, second: Result<QuizResult, QuizError>)
    requires service.Valid()
    modifies service
    ensures first.Ok? ==> second == Err(SessionNotFound)
  {
    first := service.QuizGetResult(idSessao, now);
    second := service.QuizGetResult(idSessao, now);
  }

  /** A freshly created quiz has 3 hints and starts at question 1, labelled `1 de <quantity>`. */
  method StartQuiz(service: QuizService, nivelDificuldade: string, quantidadePerguntas: int, idSessao: string, draws: Draws)
    returns (configuration: Result<QuizConfiguration, QuizError>, first: Result<QuizQuestion, QuizError>)
    requires service.Valid()
    requires idSessao !in service.activeSessions
    modifies service
    ensures configuration.Ok? ==>
      && configuration.value.dicasDisponiveis == 3
      && configuration.value.quantidadePerguntas == quantidadePerguntas
      && ValidQuantity(quantidadePerguntas)
      && first.Ok?
      && first.value.idPergunta == 1
      && first.value.progresso == ProgressLabel(1, quantidadePerguntas)
  {
    configuration := service.QuizCreate(nivelDificuldade, quantidadePerguntas, idSessao, draws);
    if configuration.Err? {
      first := Err(configuration.error);
      return;
    }
    GeneratedQuestionsSpec(service.countriesData, configuration.value.nivelDificuldade, quantidadePerguntas, draws);
    first := service.QuizGetQuestion(idSessao);
  }
}
