/** The client's store of finished quizzes: the latest results, newest first, at most ten. */
module QuizHistory {
  import opened Wrappers
  import opened Seqs
  import opened QuizTypes

  /** A finished quiz as the history keeps it; `percentualAcertos` in tenths, `None` for `NaN`. */
  datatype QuizHistoryRecord = QuizHistoryRecord(
    idSessao: string,
    dataHoraConclusao: string,
    nivelDificuldade: Difficulty,
    quantidadePerguntas: int,
    pontuacaoTotal: int,
    percentualAcertos: Option<nat>)

  /** How many records the history keeps. */
  const MaxRecords: nat := 10

  /** The filter value that selects every tier. */
  const AllTiers: string := "todos"

  /** `[record, ...records].slice(0, 10)`: the new record first, then the older ones, cut to ten. */
  function Prepend(records: seq<QuizHistoryRecord>, record: QuizHistoryRecord): (r: seq<QuizHistoryRecord>)
    ensures |r| == Min(|records| + 1, MaxRecords)
    ensures r[0] == record
    ensures forall i :: 0 < i < |r| ==> r[i] == records[i - 1]
  {
    var all := [record] + records;
    all[..Min(|all|, MaxRecords)]
  }

  /** A record once added stays, one place further back per later addition, until it is the eleventh. */
  lemma PrependTwice(records: seq<QuizHistoryRecord>, first: QuizHistoryRecord, second: QuizHistoryRecord)
    ensures Prepend(Prepend(records, first), second)[..2] == [second, first]
    ensures |records| + 2 <= MaxRecords ==> Prepend(Prepend(records, first), second) == [second, first] + records
  {
    var once := Prepend(records, first);
    var twice := Prepend(once, second);
    assert twice[1] == once[0];
    if |records| + 2 <= MaxRecords {
      assert twice == [second, first] + records by {
        forall i | 2 <= i < |twice|
          ensures twice[i] == records[i - 2]
        {
          assert twice[i] == once[i - 1];
        }
      }
    }
  }

  function HasTier(text: string): QuizHistoryRecord -> bool {
    (r: QuizHistoryRecord) => DifficultyLabel(r.nivelDificuldade) == text
  }

  /** The largest score among the records. */
  function MaxScore(records: seq<QuizHistoryRecord>): (m: int)
    requires |records| > 0
    ensures forall i :: 0 <= i < |records| ==> records[i].pontuacaoTotal <= m
    ensures exists i :: 0 <= i < |records| && records[i].pontuacaoTotal == m
  {
    if |records| == 1 then records[0].pontuacaoTotal
    else
      var rest := MaxScore(records[1..]);
      assert forall i :: 1 <= i < |records| ==> records[i] == records[1..][i - 1];
      if records[0].pontuacaoTotal >= rest then records[0].pontuacaoTotal
      else
        var j :| 0 <= j < |records[1..]| && records[1..][j].pontuacaoTotal == rest;
        assert records[j + 1].pontuacaoTotal == rest;
        rest
  }

  /** `useQuizHistoryStore`: the persisted list of records. */
  class QuizHistoryStore {
    var records: seq<QuizHistoryRecord>

    ghost predicate Valid()
      reads this
    {
      |records| <= MaxRecords
    }

    constructor ()
      ensures Valid() && records == []
    {
      records := [];
    }

    /** `addRecord`. */
    method AddRecord(record: QuizHistoryRecord)
      modifies this
      ensures records == Prepend(old(records), record)
      ensures Valid()
    {
      records := Prepend(records, record);
    }

    /**
     * `getRecords`: every record when `dificuldade` is absent, empty or `todos`, otherwise the
     * records of the tier with that label, in their order.
     */
    function GetRecords(dificuldade: Option<string>): (r: seq<QuizHistoryRecord>)
      reads this
      ensures dificuldade.None? || dificuldade.value in {"", AllTiers} ==> r == records
      ensures dificuldade.Some? && dificuldade.value !in {"", AllTiers} ==>
        && IsSubseq(r, records)
        && (forall x :: x in r <==> x in records && DifficultyLabel(x.nivelDificuldade) == dificuldade.value)
        && forall x :: x in records && DifficultyLabel(x.nivelDificuldade) == dificuldade.value ==>
             multiset(r)[x] == multiset(records)[x]
    {
      if dificuldade.None? || dificuldade.value == "" || dificuldade.value == AllTiers then records
      else
        FilterIsSubseq(records, HasTier(dificuldade.value));
        FilterSelectsTier(records, dificuldade.value);
        Filter(records, HasTier(dificuldade.value))
    }

    /** `getBestScore`: 0 for an empty history, otherwise the highest score recorded. */
    function GetBestScore(): (best: int)
      reads this
      ensures records == [] ==> best == 0
      ensures forall i :: 0 <= i < |records| ==> records[i].pontuacaoTotal <= best
      ensures records != [] ==> exists i :: 0 <= i < |records| && records[i].pontuacaoTotal == best
    {
      if |records| == 0 then 0 else MaxScore(records)
    }

    /** `clearHistory`. */
    method ClearHistory()
      modifies this
      ensures records == [] && Valid()
    {
      records := [];
    }
  }

  lemma FilterSelectsTier(records: seq<QuizHistoryRecord>, text: string)
    ensures forall x :: x in records && DifficultyLabel(x.nivelDificuldade) == text ==>
      x in Filter(records, HasTier(text)) && multiset(Filter(records, HasTier(text)))[x] == multiset(records)[x]
  {
    forall x | x in records && DifficultyLabel(x.nivelDificuldade) == text
      ensures multiset(Filter(records, HasTier(text)))[x] == multiset(records)[x]
    {
      FilterMultiset(records, HasTier(text), x);
    }
  }

  /** A new record is the best score exactly when it beats or equals every earlier one that is kept. */
  lemma BestScoreAfterAdd(records: seq<QuizHistoryRecord>, record: QuizHistoryRecord)
    requires |records| < MaxRecords
    ensures
      var added := Prepend(records, record);
      MaxScore(added) == if records == [] || record.pontuacaoTotal >= MaxScore(records) then record.pontuacaoTotal else MaxScore(records)
  {
    var added := Prepend(records, record);
    assert added == [record] + records;
    assert added[1..] == records;
  }
}
