/** `generateQuestions`: shuffle-and-take of the tier's countries, three distractors per question. */
module QuestionGenerator {
  import opened Wrappers
  import opened Seqs
  import opened Shuffle
  import opened Decimal
  import opened QuizTypes

  /** `tempo_restante` of every generated question. */
  const QuestionSeconds: nat := 30

  /** How many wrong capitals a question offers at most. */
  const DistractorCount: nat := 3

  /**
   * The random draws of one call: `selection` for the shuffle of the tier's countries,
   * `distractors(k)` and `order(k)` for the two shuffles building question `k`.
   */
  datatype Draws = Draws(selection: nat -> Unit, distractors: nat -> nat -> Unit, order: nat -> nat -> Unit)

  function IsOfTier(d: Difficulty): Country -> bool {
    (c: Country) => c.difficulty == DifficultyLabel(d)
  }

  function HasOtherCapital(capital: string): Country -> bool {
    (c: Country) => c.capital != capital
  }

  /** `countries.filter((c) => c.difficulty === difficulty)`. */
  function TierCountries(bank: seq<Country>, d: Difficulty): (r: seq<Country>)
    ensures |r| <= |bank|
    ensures forall c :: c in r ==> c in bank && c.difficulty == DifficultyLabel(d)
  {
    Filter(bank, IsOfTier(d))
  }

  /** `.map((c) => c.capital)`. */
  function Capitals(cs: seq<Country>): (r: seq<string>)
    ensures |r| == |cs| && forall k :: 0 <= k < |cs| ==> r[k] == cs[k].capital
  {
    seq(|cs|, k requires 0 <= k < |cs| => cs[k].capital)
  }

  /** The capitals of every country in the bank whose capital is not `capital`. */
  function IncorrectCapitals(bank: seq<Country>, capital: string): seq<string> {
    Capitals(Filter(bank, HasOtherCapital(capital)))
  }

  /** The options of question `k`: the correct capital and up to three shuffled wrong ones, shuffled. */
  function QuestionOptions(bank: seq<Country>, capital: string, k: nat, draws: Draws): seq<string> {
    var incorrect := Shuffled(IncorrectCapitals(bank, capital), draws.distractors(k));
    Shuffled([capital] + incorrect[..Min(DistractorCount, |incorrect|)], draws.order(k))
  }

  /** The question built for `country` at position `k` of `quantity`. */
  function BuildQuestion(bank: seq<Country>, country: Country, k: nat, quantity: nat, draws: Draws): QuizQuestion {
    QuizQuestion(
      k + 1,
      country.country,
      country.capital,
      QuestionOptions(bank, country.capital, k, draws),
      QuestionSeconds,
      ProgressLabel(k + 1, quantity),
      Some(country.curiosity))
  }

  /** `shuffleArray(filteredCountries).slice(0, quantity)`. */
  function SelectedCountries(bank: seq<Country>, d: Difficulty, quantity: nat, draws: Draws): (r: seq<Country>)
    requires quantity <= |TierCountries(bank, d)|
    ensures |r| == quantity
  {
    Shuffled(TierCountries(bank, d), draws.selection)[..quantity]
  }

  /** The `forEach` callback, as a function of the country and its index. */
  function QuestionMaker(bank: seq<Country>, quantity: nat, draws: Draws): (Country, nat) -> QuizQuestion {
    (c: Country, k: nat) => BuildQuestion(bank, c, k, quantity, draws)
  }

  /** What `generateQuestions(d, quantity)` returns or throws. */
  function GeneratedQuestions(bank: seq<Country>, d: Difficulty, quantity: nat, draws: Draws): Result<seq<QuizQuestion>, QuizError> {
    if |TierCountries(bank, d)| < quantity then Err(InsufficientCountries)
    else Ok(MapWithIndex(SelectedCountries(bank, d, quantity, draws), QuestionMaker(bank, quantity, draws), quantity))
  }

  /** The body of the `forEach` callback: builds the question for `country` at position `index`. */
  method MakeQuestion(bank: seq<Country>, country: Country, index: nat, quantity: nat, draws: Draws)
    returns (question: QuizQuestion)
    ensures question == BuildQuestion(bank, country, index, quantity, draws)
  {
    var incorrectOptions := IncorrectCapitals(bank, country.capital);
    var shuffledIncorrect := ShuffleArray(incorrectOptions, draws.distractors(index));
    var selectedIncorrect := shuffledIncorrect[..Min(DistractorCount, |shuffledIncorrect|)];
    var allOptions := ShuffleArray([country.capital] + selectedIncorrect, draws.order(index));
    question := QuizQuestion(
      index + 1,
      country.country,
      country.capital,
      allOptions,
      QuestionSeconds,
      ProgressLabel(index + 1, quantity),
      Some(country.curiosity));
  }

  /** `generateQuestions`, with the loop that pushes one question per selected country. */
  method GenerateQuestions(bank: seq<Country>, difficulty: Difficulty, quantity: nat, draws: Draws)
    returns (r: Result<seq<QuizQuestion>, QuizError>)
    ensures r == GeneratedQuestions(bank, difficulty, quantity, draws)
  {
    var filteredCountries := TierCountries(bank, difficulty);
    if |filteredCountries| < quantity {
      return Err(InsufficientCountries);
    }
    var shuffledCountries := ShuffleArray(filteredCountries, draws.selection);
    var selectedCountries := shuffledCountries[..quantity];
    var questions: seq<QuizQuestion> := [];
    for index := 0 to |selectedCountries|
      invariant questions == MapWithIndex(selectedCountries, QuestionMaker(bank, quantity, draws), index)
    {
      var question := MakeQuestion(bank, selectedCountries[index], index, quantity, draws);
      questions := questions + [question];
    }
    assert selectedCountries == SelectedCountries(bank, difficulty, quantity, draws);
    r := Ok(questions);
  }

  /** A wrong capital is the capital of another country of the bank and differs from the correct one. */
  lemma IncorrectCapitalsAreWrong(bank: seq<Country>, capital: string, o: string)
    requires o in IncorrectCapitals(bank, capital)
    ensures o != capital
    ensures exists c :: c in bank && c.capital == o
  {
    var cs := Filter(bank, HasOtherCapital(capital));
    var k :| 0 <= k < |cs| && Capitals(cs)[k] == o;
    assert cs[k] in cs;
  }

  /**
   * Each question offers its correct capital and up to three wrong ones,
   * every wrong one the capital of another country of the bank.
   */
  lemma {:induction false} QuestionOptionsContainCorrect(bank: seq<Country>, capital: string, k: nat, draws: Draws)
    ensures var opts := QuestionOptions(bank, capital, k, draws);
      && capital in opts
      && |opts| == 1 + Min(DistractorCount, |IncorrectCapitals(bank, capital)|)
      && forall o :: o in opts && o != capital ==> o in IncorrectCapitals(bank, capital)
  {
    var all := IncorrectCapitals(bank, capital);
    var incorrect := Shuffled(all, draws.distractors(k));
    var taken := incorrect[..Min(DistractorCount, |incorrect|)];
    var opts := QuestionOptions(bank, capital, k, draws);
    ShuffledPermutes(all, draws.distractors(k));
    ShuffledPermutes([capital] + taken, draws.order(k));
    assert capital in multiset(opts);
    forall o | o in opts && o != capital
      ensures o in all
    {
      assert o in multiset([capital] + taken);
      assert o in taken;
      assert o in multiset(incorrect);
    }
  }

  /** With pairwise distinct capitals in the bank, the options of a question are pairwise distinct. */
  lemma QuestionOptionsDistinct(bank: seq<Country>, capital: string, k: nat, draws: Draws)
    requires DistinctBy(bank, CapitalOf)
    ensures Distinct(QuestionOptions(bank, capital, k, draws))
  {
    var others := Filter(bank, HasOtherCapital(capital));
    FilterKeepsDistinctBy(bank, HasOtherCapital(capital), CapitalOf);
    var all := IncorrectCapitals(bank, capital);
    assert Distinct(all) by {
      forall a, b | 0 <= a < b < |all|
        ensures all[a] != all[b]
      {
        assert CapitalOf(others[a]) != CapitalOf(others[b]);
      }
    }
    var incorrect := Shuffled(all, draws.distractors(k));
    ShuffledKeepsDistinct(all, draws.distractors(k));
    ShuffledPermutes(all, draws.distractors(k));
    var taken := incorrect[..Min(DistractorCount, |incorrect|)];
    var list := [capital] + taken;
    forall a, b | 0 <= a < b < |list|
      ensures list[a] != list[b]
    {
      if a == 0 {
        assert list[b] == incorrect[b - 1];
        assert incorrect[b - 1] in multiset(all);
        IncorrectCapitalsAreWrong(bank, capital, list[b]);
      } else {
        assert list[a] == incorrect[a - 1] && list[b] == incorrect[b - 1];
      }
    }
    ShuffledKeepsDistinct(list, draws.order(k));
  }

  /** With pairwise distinct capitals, every country of the bank but one has a wrong capital for `c`. */
  lemma IncorrectCapitalsCount(bank: seq<Country>, c: Country)
    requires DistinctBy(bank, CapitalOf)
    requires c in bank
    ensures |IncorrectCapitals(bank, c.capital)| == |bank| - 1
  {
    var i :| 0 <= i < |bank| && bank[i] == c;
    forall j | 0 <= j < |bank| && j != i
      ensures HasOtherCapital(c.capital)(bank[j])
    {
      if j < i {
        assert CapitalOf(bank[j]) != CapitalOf(bank[i]);
      } else {
        assert CapitalOf(bank[i]) != CapitalOf(bank[j]);
      }
    }
    FilterOneRejected(bank, HasOtherCapital(c.capital), i);
  }

  /** The selection draws without replacement from the countries of the tier. */
  lemma SelectedCountriesFromTier(bank: seq<Country>, d: Difficulty, quantity: nat, draws: Draws)
    requires quantity <= |TierCountries(bank, d)|
    ensures multiset(SelectedCountries(bank, d, quantity, draws)) <= multiset(TierCountries(bank, d))
    ensures forall c :: c in SelectedCountries(bank, d, quantity, draws) ==>
      c in bank && c.difficulty == DifficultyLabel(d)
  {
    var tier := TierCountries(bank, d);
    var shuffled := Shuffled(tier, draws.selection);
    ShuffledPermutes(tier, draws.selection);
    assert shuffled == shuffled[..quantity] + shuffled[quantity..];
    forall c | c in SelectedCountries(bank, d, quantity, draws)
      ensures c in bank && c.difficulty == DifficultyLabel(d)
    {
      assert c in multiset(shuffled);
      assert c in tier;
    }
  }

  /**
   * `generateQuestions` fails exactly when the tier has fewer countries than requested;
   * otherwise question `k` has number `k + 1`, asks for the `k`-th selected country,
   * has 30 seconds, the label `<k + 1> de <quantity>`, the country's curiosity and options
   * that hold the correct capital and at most three wrong capitals of other countries.
   */
  lemma GeneratedQuestionsSpec(bank: seq<Country>, d: Difficulty, quantity: nat, draws: Draws)
    ensures var r := GeneratedQuestions(bank, d, quantity, draws);
      && (r.Err? <==> |TierCountries(bank, d)| < quantity)
      && (r.Err? ==> r.error == InsufficientCountries)
      && (r.Ok? ==> |r.value| == quantity)
    ensures GeneratedQuestions(bank, d, quantity, draws).Ok? ==>
      var qs := GeneratedQuestions(bank, d, quantity, draws).value;
      var selected := SelectedCountries(bank, d, quantity, draws);
      forall k :: 0 <= k < quantity ==>
        && qs[k].idPergunta == k + 1
        && qs[k].pais == selected[k].country
        && qs[k].capitalCorreta == selected[k].capital
        && qs[k].curiosidade == Some(selected[k].curiosity)
        && qs[k].tempoRestante == 30
        && qs[k].progresso == ProgressLabel(k + 1, quantity)
        && qs[k].capitalCorreta in qs[k].alternativas
        && |qs[k].alternativas| <= 4
        && forall o :: o in qs[k].alternativas && o != qs[k].capitalCorreta ==>
             o in IncorrectCapitals(bank, qs[k].capitalCorreta)
  {
    if quantity <= |TierCountries(bank, d)| {
      var selected := SelectedCountries(bank, d, quantity, draws);
      var qs := GeneratedQuestions(bank, d, quantity, draws).value;
      forall k | 0 <= k < quantity
        ensures qs[k] == BuildQuestion(bank, selected[k], k, quantity, draws)
        ensures var opts := QuestionOptions(bank, selected[k].capital, k, draws);
          && selected[k].capital in opts
          && |opts| <= 4
          && forall o :: o in opts && o != selected[k].capital ==> o in IncorrectCapitals(bank, selected[k].capital)
      {
        MapWithIndexAt(selected, QuestionMaker(bank, quantity, draws), quantity, k);
        QuestionOptionsContainCorrect(bank, selected[k].capital, k, draws);
      }
    }
  }

  /** With pairwise distinct country names in the bank, no country is asked about twice. */
  lemma GeneratedQuestionsDistinctCountries(bank: seq<Country>, d: Difficulty, quantity: nat, draws: Draws)
    requires DistinctBy(bank, CountryNameOf)
    requires quantity <= |TierCountries(bank, d)|
    ensures GeneratedQuestions(bank, d, quantity, draws).Ok?
    ensures var qs := GeneratedQuestions(bank, d, quantity, draws).value;
      forall a, b :: 0 <= a < b < |qs| ==> qs[a].pais != qs[b].pais
  {
    var tier := TierCountries(bank, d);
    FilterKeepsDistinctBy(bank, IsOfTier(d), CountryNameOf);
    ShuffledKeepsDistinctBy(tier, draws.selection, CountryNameOf);
    var shuffled := Shuffled(tier, draws.selection);
    var qs := GeneratedQuestions(bank, d, quantity, draws).value;
    var selected := SelectedCountries(bank, d, quantity, draws);
    forall a, b | 0 <= a < b < |qs|
      ensures qs[a].pais != qs[b].pais
    {
      MapWithIndexAt(selected, QuestionMaker(bank, quantity, draws), quantity, a);
      MapWithIndexAt(selected, QuestionMaker(bank, quantity, draws), quantity, b);
      assert CountryNameOf(shuffled[a]) != CountryNameOf(shuffled[b]);
    }
  }

  /**
   * With pairwise distinct capitals and at least four countries in the bank, every question
   * offers exactly four pairwise distinct options.
   */
  lemma GeneratedQuestionsFourDistinctOptions(bank: seq<Country>, d: Difficulty, quantity: nat, draws: Draws)
    requires DistinctBy(bank, CapitalOf)
    requires |bank| >= 4
    requires quantity <= |TierCountries(bank, d)|
    ensures GeneratedQuestions(bank, d, quantity, draws).Ok?
    ensures var qs := GeneratedQuestions(bank, d, quantity, draws).value;
      forall k :: 0 <= k < |qs| ==> |qs[k].alternativas| == 4 && Distinct(qs[k].alternativas)
  {
    var selected := SelectedCountries(bank, d, quantity, draws);
    SelectedCountriesFromTier(bank, d, quantity, draws);
    var qs := GeneratedQuestions(bank, d, quantity, draws).value;
    forall k | 0 <= k < quantity
      ensures qs[k] == BuildQuestion(bank, selected[k], k, quantity, draws)
      ensures var opts := QuestionOptions(bank, selected[k].capital, k, draws);
        |opts| == 4 && Distinct(opts)
    {
      MapWithIndexAt(selected, QuestionMaker(bank, quantity, draws), quantity, k);
      assert selected[k] in selected;
      IncorrectCapitalsCount(bank, selected[k]);
      QuestionOptionsContainCorrect(bank, selected[k].capital, k, draws);
      QuestionOptionsDistinct(bank, selected[k].capital, k, draws);
    }
  }
}
