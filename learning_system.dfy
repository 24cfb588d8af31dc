/** The weight-learning data path (`LearningSystem`): pairwise feature
    differences collected from the pick log, the guards of the weight
    optimiser around an abstract linear solve, and the update of the weights
    store with its report. */
module Learning {
  import opened Common
  import opened Weights
  import PyRound

  /** The score keys of a logged card score, in feature order. */
  const ScoreKeys: seq<string> :=
    ["base_score", "curve_bonus", "role_bonus", "duplication_penalty", "synergy_bonus", "archetype_bonus", "meta_bonus"]

  /** The feature names, in the order of the regression's columns. */
  const FeatureNames: seq<string> := ["base", "curve", "role", "duplication", "synergy", "archetype", "meta"]

  /** One logged card score: its `card_id` entry (if any) and its numeric
      entries. */
  datatype ScoreEntry = ScoreEntry(cardId: Option<string>, values: map<string, real>)

  /** The `scores_json` column: text that is not JSON, or the parsed list. */
  datatype ScoresJson = Malformed | Parsed(scores: seq<ScoreEntry>)

  /** One row of `pick_logs`; NULL columns are `None`. */
  datatype LogRow = LogRow(action: string, chosenId: Option<string>, scoresJson: Option<ScoresJson>,
                           recommendedId: Option<string>)

  /** One training example: the seven feature differences in `FeatureNames`
      order, the label (`target`) and whether the user followed the
      recommendation. */
  datatype Example = Example(features: seq<real>, target: int, agreement: bool)

  /** `s.get(key, 0)`. */
  function Value(e: ScoreEntry, key: string): real {
    if key in e.values then e.values[key] else 0.0
  }

  /** The feature differences chosen minus other, missing entries read as 0. */
  function FeatureDiff(chosen: ScoreEntry, other: ScoreEntry): (d: seq<real>)
    ensures |d| == |FeatureNames|
    ensures forall i :: 0 <= i < |d| ==> d[i] == Value(chosen, ScoreKeys[i]) - Value(other, ScoreKeys[i])
  {
    seq(|ScoreKeys|, i requires 0 <= i < |ScoreKeys| => Value(chosen, ScoreKeys[i]) - Value(other, ScoreKeys[i]))
  }

  /** `next((s for s in scores if s['card_id'] == chosen_id), None)`. */
  function FirstWithId(scores: seq<ScoreEntry>, id: string): (r: Option<nat>)
    ensures r.Some? ==> r.value < |scores| && scores[r.value].cardId == Some(id)
                        && forall j :: 0 <= j < r.value ==> scores[j].cardId != Some(id)
    ensures r.None? ==> forall j :: 0 <= j < |scores| ==> scores[j].cardId != Some(id)
  {
    if scores == [] then None
    else if scores[0].cardId == Some(id) then Some(0)
    else
      var r := FirstWithId(scores[1..], id);
      if r.Some? then Some(r.value + 1) else None
  }

  /** `[s for s in scores if s['card_id'] != chosen_id]`. */
  function Others(scores: seq<ScoreEntry>, id: string): (r: seq<ScoreEntry>)
    ensures |r| <= |scores|
    ensures forall e :: e in r <==> e in scores && e.cardId != Some(id)
  {
    if scores == [] then []
    else (if scores[0].cardId != Some(id) then [scores[0]] else []) + Others(scores[1..], id)
  }

  /** The examples of one chosen score against each other score. */
  function PairExamples(chosen: ScoreEntry, others: seq<ScoreEntry>, agreement: bool): (r: seq<Example>)
    ensures |r| == |others|
    ensures forall j :: 0 <= j < |r| ==> r[j] == Example(FeatureDiff(chosen, others[j]), 1, agreement)
  {
    seq(|others|, j requires 0 <= j < |others| => Example(FeatureDiff(chosen, others[j]), 1, agreement))
  }

  /** The scores of a row that gives examples: it is a `pick` with a chosen id
      and parsed scores, at least two of them, each with a `card_id` (a
      missing one raises `KeyError`), the chosen id among them and some other
      id. */
  function QualifyingScores(row: LogRow): Option<seq<ScoreEntry>> {
    if row.action != "pick" || row.chosenId.None? || row.scoresJson.None? then None
    else match row.scoresJson.value
      case Malformed => None
      case Parsed(scores) =>
        if |scores| < 2 then None
        else if exists j :: 0 <= j < |scores| && scores[j].cardId.None? then None
        else if FirstWithId(scores, row.chosenId.value).None? then None
        else if Others(scores, row.chosenId.value) == [] then None
        else Some(scores)
  }

  /** The examples one log row contributes. */
  function RowExamples(row: LogRow): seq<Example> {
    var scores := QualifyingScores(row);
    if scores.None? then []
    else
      var id := row.chosenId.value;
      PairExamples(scores.value[FirstWithId(scores.value, id).value], Others(scores.value, id),
                   row.recommendedId == Some(id))
  }

  /** `collect_training_data` over the rows of `pick_logs`. */
  function ExamplesOf(rows: seq<LogRow>): seq<Example> {
    Flatten(RowExamples, rows)
  }

  /** The results of `f` on each element of `s`, one after the other. */
  function Flatten<A, B>(f: A -> seq<B>, s: seq<A>): seq<B> {
    if s == [] then [] else Flatten(f, s[..|s| - 1]) + f(s[|s| - 1])
  }

  /** Flattening a concatenation is flattening its parts. */
  lemma {:induction false} FlattenAppend<A, B>(f: A -> seq<B>, s: seq<A>, t: seq<A>)
    ensures Flatten(f, s + t) == Flatten(f, s) + Flatten(f, t)
    decreases |t|
  {
    if t == [] {
      assert s + t == s;
    } else {
      var n := |t| - 1;
      assert (s + t)[..|s + t| - 1] == s + t[..n];
      assert (s + t)[|s + t| - 1] == t[n];
      FlattenAppend(f, s, t[..n]);
    }
  }

  /** A qualifying row gives one example per score with another id, each
      labelled 1, with the chosen card's first score minus the other's as
      features and the agreement flag set exactly when the chosen id was the
      recommended one; any other row gives none. */
  lemma RowExamplesShape(row: LogRow)
    ensures QualifyingScores(row).None? <==> RowExamples(row) == []
    ensures QualifyingScores(row).Some? ==>
              var scores := QualifyingScores(row).value;
              var id := row.chosenId.value;
              var others := Others(scores, id);
              var chosen := scores[FirstWithId(scores, id).value];
              |RowExamples(row)| == |others|
              && chosen.cardId == Some(id)
              && forall j :: 0 <= j < |others| ==>
                   var e := RowExamples(row)[j];
                   e.target == 1 && e.agreement == (row.recommendedId == Some(id))
                   && others[j].cardId != Some(id)
                   && forall i :: 0 <= i < |FeatureNames| ==>
                        e.features[i] == Value(chosen, ScoreKeys[i]) - Value(others[j], ScoreKeys[i])
  {
    var scores := QualifyingScores(row);
    if scores.Some? {
      var others := Others(scores.value, row.chosenId.value);
      forall j | 0 <= j < |others|
        ensures others[j].cardId != Some(row.chosenId.value)
      {
        assert others[j] in others;
      }
    }
  }

  /** Only rows that are picks with a chosen id and parseable scores
      contribute; a malformed row or one with a missing `card_id` gives
      nothing. */
  lemma RowsThatGiveNothing(row: LogRow)
    ensures row.action != "pick" || row.chosenId.None? || row.scoresJson == None || row.scoresJson == Some(Malformed)
            ==> RowExamples(row) == []
    ensures row.scoresJson.Some? && row.scoresJson.value.Parsed?
            && (|row.scoresJson.value.scores| < 2
                || exists j :: 0 <= j < |row.scoresJson.value.scores| && row.scoresJson.value.scores[j].cardId.None?)
            ==> RowExamples(row) == []
  {
  }

  /** The examples of a log are those of its parts, one after the other:
      a skipped row does not affect the examples of any other row. */
  lemma {:induction false} ExamplesAppend(rows: seq<LogRow>, more: seq<LogRow>)
    ensures ExamplesOf(rows + more) == ExamplesOf(rows) + ExamplesOf(more)
  {
    FlattenAppend(RowExamples, rows, more);
  }

  /** Every example has seven features and label 1. */
  lemma {:induction false} ExamplesLabelled(rows: seq<LogRow>)
    ensures forall e :: e in ExamplesOf(rows) ==> e.target == 1 && |e.features| == |FeatureNames|
    decreases |rows|
  {
    if rows != [] {
      ExamplesLabelled(rows[..|rows| - 1]);
    }
  }

  // ---------------------------------------------------------------------
  // The optimiser
  // ---------------------------------------------------------------------

  /** A solution vector of the seven-column regression. */
  type Solution = s: seq<real> | |s| == 7 witness [0.0, 0.0, 0.0, 0.0, 0.0, 0.0, 0.0]

  /** `np.linalg.solve(X.T @ X + 0.01 * I, X.T @ y)` for the feature matrix
      `X` (and `y` all ones): a solution, or `None` where numpy raises
      `LinAlgError`. The floating-point linear algebra is not modelled. */
  type Solver = seq<seq<real>> -> Option<Solution>

  /** `np.clip(x, 0.1, 3.0)`. */
  function Clip(x: real): (r: real)
    ensures 0.1 <= r <= 3.0
    ensures 0.1 <= x <= 3.0 ==> r == x
  {
    MinR(MaxR(x, 0.1), 3.0)
  }

  /** The feature matrix: one row per example. */
  function Matrix(data: seq<Example>): (x: seq<seq<real>>)
    ensures |x| == |data|
  {
    seq(|data|, i requires 0 <= i < |data| => data[i].features)
  }

  /** `{features[i]: float(optimal_weights[i]) for i in range(7)}` after the
      clip. */
  function SolvedWeights(v: Solution): map<string, real> {
    map f | f in FeatureNames :: Clip(v[IndexOf(FeatureNames, f)])
  }

  /** `optimize_weights(training_data)` given the current weights. */
  function OptimizedOf(data: seq<Example>, solve: Solver, current: map<string, real>): map<string, real> {
    if data == [] || |data| < 5 then current
    else
      var v := solve(Matrix(data));
      if v.None? then current else SolvedWeights(v.value)
  }

  /** Fewer than five examples, or a singular system, keep the current
      weights; a solved system gives every feature a weight in [0.1, 3.0]
      and nothing else. */
  lemma OptimizedProperties(data: seq<Example>, solve: Solver, current: map<string, real>)
    ensures |data| < 5 ==> OptimizedOf(data, solve, current) == current
    ensures |data| >= 5 && solve(Matrix(data)).None? ==> OptimizedOf(data, solve, current) == current
    ensures |data| >= 5 && solve(Matrix(data)).Some? ==>
              var w := OptimizedOf(data, solve, current);
              w.Keys == set f | f in FeatureNames
              && forall f :: f in w ==> 0.1 <= w[f] <= 3.0
  {
  }

  /** The report of `train_and_update`. A missing old weight for a new key
      raises `KeyError` after the update has been written. */
  datatype TrainReport =
    | NoTrainingData
    | Trained(dataCount: nat, agreementRate: real, weightChanges: map<string, real>)
    | MissingOldWeight

  /** `sum(1 for d in training_data if d['agreement'])`. */
  function AgreementCount(data: seq<Example>): (n: nat)
    ensures n <= |data|
  {
    if data == [] then 0 else AgreementCount(data[..|data| - 1]) + (if data[|data| - 1].agreement then 1 else 0)
  }

  /** `{k: round(new[k] - old[k], 3) for k in new}`. */
  function Changes(old_: map<string, real>, new_: map<string, real>): map<string, real>
    requires new_.Keys <= old_.Keys
  {
    map k | k in new_ :: PyRound.Round(new_[k] - old_[k], 3)
  }

  /** The report of `train_and_update`, given the examples and the weights
      before the update. */
  function TrainOf(data: seq<Example>, solve: Solver, current: map<string, real>): TrainReport {
    if data == [] then NoTrainingData
    else
      var new_ := OptimizedOf(data, solve, current);
      if !(new_.Keys <= current.Keys) then MissingOldWeight
      else
        var rate := AgreementCount(data) as real / |data| as real;
        Trained(|data|, PyRound.Round(rate * 100.0, 1), Changes(current, new_))
  }

  /** No examples, no update. Otherwise the report counts the examples, its
      agreement rate is in [0, 100], and each change is the rounded
      difference of new and old weight; with one to four examples the
      weights stay as they were and every change is 0. */
  lemma TrainProperties(data: seq<Example>, solve: Solver, current: map<string, real>)
    ensures TrainOf(data, solve, current) == NoTrainingData <==> data == []
    ensures var r := TrainOf(data, solve, current);
            r.Trained? ==> r.dataCount == |data| && 0.0 <= r.agreementRate <= 100.0
                           && forall k :: k in r.weightChanges ==>
                                k in current && k in OptimizedOf(data, solve, current)
                                && r.weightChanges[k] == PyRound.Round(OptimizedOf(data, solve, current)[k] - current[k], 3)
    ensures var r := TrainOf(data, solve, current);
            1 <= |data| < 5 ==> r.Trained? && r.weightChanges.Keys == current.Keys
                                && forall k :: k in r.weightChanges ==> r.weightChanges[k] == 0.0
  {
    if data != [] {
      ShareBounds(AgreementCount(data), |data|);
      var rate := AgreementCount(data) as real / |data| as real;
      PyRound.RoundBetween(rate * 100.0, 0, 100, 1);
      PyRound.RoundInteger(0, 3);
    }
  }

  // ---------------------------------------------------------------------
  // The learning system and its loops
  // ---------------------------------------------------------------------

  class LearningSystem {
    const manager: WeightsManager

    /** `LearningSystem()`: `WeightsManager()` as written over the weights
        file, so that with no usable `weights` entry the current table is
        the process-wide default table itself. */
    constructor (file: WeightsFile, defaults: WeightTable)
      modifies file
      ensures fresh(manager) && manager.file == file && manager.defaults == defaults
      ensures UsesDefaults(old(file.state)) ==> manager.weights == defaults && !manager.Valid()
      ensures !UsesDefaults(old(file.state)) ==>
                manager.Valid() && manager.weights.entries == old(file.state).weights.value
      ensures defaults.entries == old(defaults.entries)
    {
      var m := new WeightsManager.AsWritten(file, defaults);
      manager := m;
    }

    /** `collect_training_data`: for each qualifying row, one example per
        other score. */
    method CollectTrainingData(rows: seq<LogRow>) returns (data: seq<Example>)
      ensures data == ExamplesOf(rows)
    {
      data := [];
      var i := 0;
      while i < |rows|
        invariant 0 <= i <= |rows|
        invariant data == ExamplesOf(rows[..i])
      {
        assert rows[..i + 1][..i] == rows[..i];
        var rowData := CollectRow(rows[i]);
        data := data + rowData;
        i := i + 1;
      }
      assert rows[..i] == rows;
    }

    /** The inner loop of `collect_training_data` for one row. */
    method CollectRow(row: LogRow) returns (data: seq<Example>)
      ensures data == RowExamples(row)
    {
      data := [];
      var scores := QualifyingScores(row);
      if scores.None? {
        return;
      }
      var id := row.chosenId.value;
      var chosen := scores.value[FirstWithId(scores.value, id).value];
      var others := Others(scores.value, id);
      var agreement := row.recommendedId == Some(id);
      var j := 0;
      while j < |others|
        invariant 0 <= j <= |others|
        invariant data == PairExamples(chosen, others[..j], agreement)
      {
        data := data + [Example(FeatureDiff(chosen, others[j]), 1, agreement)];
        j := j + 1;
      }
      assert others[..j] == others;
    }

    /** `optimize_weights`. */
    method OptimizeWeights(data: seq<Example>, solve: Solver) returns (w: map<string, real>)
      ensures w == OptimizedOf(data, solve, manager.weights.entries)
    {
      var current := manager.GetWeights();
      if data == [] || |data| < 5 {
        return current.entries;
      }
      var v := solve(Matrix(data));
      if v.None? {
        return current.entries;
      }
      w := SolvedWeights(v.value);
    }

    /** `train_and_update`: the report, and the store merged with the new
        weights and written back whenever there were examples. */
    method TrainAndUpdate(rows: seq<LogRow>, solve: Solver) returns (r: TrainReport)
      modifies manager.weights, manager.file
      ensures manager.weights == old(manager.weights) && (manager.Valid() <==> old(manager.Valid()))
      ensures r == TrainOf(ExamplesOf(rows), solve, old(manager.weights.entries))
      ensures ExamplesOf(rows) == [] ==> manager.weights.entries == old(manager.weights.entries)
      ensures ExamplesOf(rows) != [] ==>
                manager.weights.entries
                  == Merge(old(manager.weights.entries), OptimizedOf(ExamplesOf(rows), solve, old(manager.weights.entries)))
                && manager.file.state == Stored(WeightsVersion, Some(manager.weights.entries))
      ensures old(manager.Valid()) ==> manager.defaults.entries == old(manager.defaults.entries)
      ensures !old(manager.Valid()) ==> manager.defaults.entries == manager.weights.entries
    {
      var data := CollectTrainingData(rows);
      if data == [] {
        return NoTrainingData;
      }
      var old_ := manager.GetWeights();
      var new_ := OptimizeWeights(data, solve);
      manager.UpdateWeights(new_);
      if !(new_.Keys <= old_.entries.Keys) {
        return MissingOldWeight;
      }
      var rate := AgreementCount(data) as real / |data| as real;
      r := Trained(|data|, PyRound.Round(rate * 100.0, 1), Changes(old_.entries, new_));
    }
  }
}
