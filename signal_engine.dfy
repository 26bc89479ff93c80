/** `AISignalEngine` of `core/signals.py` as an object: the confidence
    threshold, the stored signals, the learning records and the adaptive
    parameter weights are fields its methods update in place.  Each method is
    proved against the function of `SignalScoring` or `SignalLearning` that
    states what it computes. */
module SignalEngine {
  import opened Common
  import opened Calendar
  import opened Sorting
  import opened SignalScoring
  import opened SignalLearning

  /** `param_performance`: the (score, profit) pairs of each parameter name,
      gathered record by record. */
  method Performance(recent: seq<LearningRecord>) returns (perf: seq<seq<ScorePnl>>)
    ensures |perf| == |WeightNames|
    ensures forall j :: 0 <= j < |WeightNames| ==> perf[j] == PerformanceOf(recent, WeightNames[j])
  {
    perf := [[], [], [], [], [], [], []];
    for i := 0 to |recent|
      invariant |perf| == |WeightNames|
      invariant forall j :: 0 <= j < |WeightNames| ==> perf[j] == PerformanceOf(recent[..i], WeightNames[j])
    {
      var params := recent[i].parameters;
      var pnl := recent[i].pnl;
      assert recent[..i + 1][..i] == recent[..i];
      for j := 0 to |WeightNames|
        invariant |perf| == |WeightNames|
        invariant forall k :: 0 <= k < j ==> perf[k] == PerformanceOf(recent[..i + 1], WeightNames[k])
        invariant forall k :: j <= k < |WeightNames| ==> perf[k] == PerformanceOf(recent[..i], WeightNames[k])
      {
        match LookupScore(params, ScoreKey(WeightNames[j])) {
          case Some(v) => perf := perf[j := perf[j] + [ScorePnl(v, pnl)]];
          case None =>
        }
      }
    }
    assert recent[..|recent|] == recent;
  }

  /** The new weight of one parameter with data. */
  method NewWeight(data: seq<ScorePnl>, previous: real) returns (weight: real)
    ensures weight == RawWeight(data, previous)
  {
    var high: seq<real> := [];
    for k := 0 to |data|
      invariant high == HighScorePnl(data[..k])
    {
      assert data[..k + 1][..k] == data[..k];
      if data[k].score > 0.6 {
        high := high + [data[k].pnl];
      }
    }
    assert data[..|data|] == data;
    if high != [] {
      var sum := 0.0;
      for k := 0 to |high|
        invariant sum == SumOf(high[..k])
      {
        assert high[..k + 1][..k] == high[..k];
        sum := sum + high[k];
      }
      assert high[..|high|] == high;
      weight := Max(0.05, Min(0.35, sum / |high| as real / 1000.0 + 0.15));
    } else {
      weight := previous;
    }
  }

  /** The first loop of `optimize_weights`: the new weight of every
      parameter and the total of those that had data. */
  method NewWeights(recent: seq<LearningRecord>, w: map<string, real>) returns (newWeights: map<string, real>, total: real)
    requires HasWeightNames(w)
    ensures newWeights == RawWeightsUpTo(recent, w, |WeightNames|)
    ensures total == TotalUpTo(recent, w, |WeightNames|)
  {
    var perf := Performance(recent);
    total := 0.0;
    newWeights := map[];
    for j := 0 to |WeightNames|
      invariant newWeights == RawWeightsUpTo(recent, w, j)
      invariant total == TotalUpTo(recent, w, j)
    {
      var name := WeightNames[j];
      var data := perf[j];
      if data == [] {
        newWeights := newWeights[name := w[name]];
      } else {
        var weight := NewWeight(data, w[name]);
        newWeights := newWeights[name := weight];
        total := total + weight;
      }
    }
  }

  /** The second loop of `optimize_weights`: every weight over the total. */
  method NormalizeWeights(raw: map<string, real>, total: real) returns (normalized: map<string, real>)
    requires total != 0.0
    requires raw.Keys == (set i | 0 <= i < |WeightNames| :: WeightNames[i])
    ensures normalized == Normalize(raw, total)
  {
    WeightNamesDistinct();
    normalized := raw;
    for j := 0 to |WeightNames|
      invariant normalized.Keys == raw.Keys
      invariant forall k :: 0 <= k < j ==> normalized[WeightNames[k]] == raw[WeightNames[k]] / total
      invariant forall k :: j <= k < |WeightNames| ==> normalized[WeightNames[k]] == raw[WeightNames[k]]
    {
      normalized := normalized[WeightNames[j] := normalized[WeightNames[j]] / total];
    }
  }

  /** Folding one more entry is one more dictionary assignment. */
  lemma FoldStep(es: seq<Entry>, i: nat)
    requires i < |es|
    ensures Fold(es[..i + 1]) == Upsert(Fold(es[..i]), es[i])
  {
    assert es[..i + 1][..i] == es[..i];
  }

  /** Considering one more entry emits its signal when it qualifies. */
  lemma EmittedStep(es: seq<Entry>, i: nat, threshold: real, symbol: string, underlying: real,
                    now: DateTime, ids: nat -> string)
    requires i < |es|
    ensures var prev := Emitted(es[..i], threshold, symbol, underlying, now, ids);
      Emitted(es[..i + 1], threshold, symbol, underlying, now, ids)
      == if Qualifies(es[i], threshold) then prev + [SignalFor(es[i], symbol, underlying, now, ids(|prev|))]
         else prev
  {
    assert es[..i + 1][..i] == es[..i];
  }

  /** The loop of `generate_signals` over the analysis entries. */
  method EmitSignals(analysis: seq<Entry>, threshold: real, symbol: string, underlying: real,
                     now: DateTime, ids: nat -> string) returns (emitted: seq<Signal>)
    ensures emitted == Emitted(analysis, threshold, symbol, underlying, now, ids)
  {
    emitted := [];
    for i := 0 to |analysis|
      invariant emitted == Emitted(analysis[..i], threshold, symbol, underlying, now, ids)
    {
      EmittedStep(analysis, i, threshold, symbol, underlying, now, ids);
      var e := analysis[i];
      if e.confidence >= threshold {
        var action := DetermineAction(e.parameters, e.row.optionType, e.confidence);
        if action != HOLD {
          var signal := Signal(ids(|emitted|), symbol, e.row.strike, e.row.optionType, action,
                               e.confidence * 100.0, e.reasoning, now, e.row.ltp, e.parameters, underlying);
          emitted := emitted + [signal];
        }
      }
    }
    assert analysis[..|analysis|] == analysis;
  }

  /** The counting loop of `get_accuracy`: right predictions, high-confidence
      records and right high-confidence predictions. */
  method CountOutcomes(recent: seq<LearningRecord>) returns (correct: nat, highCorrect: nat, highTotal: nat)
    ensures correct == CountCorrect(recent)
    ensures highTotal == CountHigh(recent)
    ensures highCorrect == CountHighCorrect(recent)
  {
    correct, highCorrect, highTotal := 0, 0, 0;
    for i := 0 to |recent|
      invariant correct == CountCorrect(recent[..i])
      invariant highTotal == CountHigh(recent[..i])
      invariant highCorrect == CountHighCorrect(recent[..i])
    {
      assert recent[..i + 1][..i] == recent[..i];
      var predictedProfitable := recent[i].predictedConfidence > 70.0;
      var actuallyProfitable := recent[i].pnl > 0.0;
      if predictedProfitable == actuallyProfitable {
        correct := correct + 1;
      }
      if recent[i].predictedConfidence > 75.0 {
        highTotal := highTotal + 1;
        if predictedProfitable == actuallyProfitable {
          highCorrect := highCorrect + 1;
        }
      }
    }
    assert recent[..|recent|] == recent;
  }

  /** The history cap of `generate_signals`: only the last 1000 signals stay. */
  method KeepRecent(all: seq<Signal>) returns (kept: seq<Signal>)
    ensures kept == LastN(all, 1000)
  {
    kept := all;
    if |kept| > 1000 {
      kept := kept[|kept| - 1000..];
    }
  }

  class Engine {
    var confidenceThreshold: real
    var signalsHistory: seq<Signal>
    var learningData: seq<LearningRecord>
    var parameterWeights: map<string, real>

    /** Every parameter name has a weight. */
    ghost predicate Valid()
      reads this
    {
      HasWeightNames(parameterWeights)
    }

    /** A fresh engine: threshold 0.6, no signals, no learning records and the
        initial weights (no saved learning data is found). */
    constructor ()
      ensures Valid()
      ensures confidenceThreshold == 0.6 && signalsHistory == [] && learningData == []
      ensures parameterWeights == InitialWeights
    {
      confidenceThreshold := 0.6;
      signalsHistory := [];
      learningData := [];
      parameterWeights := InitialWeights;
    }

    /** `analyze_market_parameters`: the rows are scored one after another
        into the analysis keyed by type and strike. */
    method AnalyzeMarketParameters(chain: seq<ChainRow>, underlying: real) returns (analysis: seq<Entry>)
      requires chain == [] || underlying != 0.0
      ensures analysis == Analyze(chain, underlying, parameterWeights)
      ensures DistinctKeys(analysis)
    {
      ghost var es := Entries(chain, underlying, parameterWeights);
      analysis := [];
      for i := 0 to |chain|
        invariant analysis == Fold(es[..i])
      {
        FoldStep(es, i);
        analysis := Upsert(analysis, EntryFor(chain[i], underlying, parameterWeights));
      }
      assert es[..|chain|] == es;
      assert analysis == Analyze(chain, underlying, parameterWeights);
      AnalyzeDistinct(chain, underlying, parameterWeights);
    }

    /** `generate_signals`: outside trading time or for an empty chain nothing
        is returned and the history stays; otherwise every analysis entry at
        the threshold whose action is not HOLD becomes a signal, the signals
        are appended to the history, which keeps its last 1000, and are
        returned by confidence, largest first. */
    method GenerateSignals(symbol: string, chain: seq<ChainRow>, underlying: real,
                           now: DateTime, ids: nat -> string) returns (signals: seq<Signal>)
      requires chain == [] || underlying != 0.0
      modifies this`signalsHistory
      ensures (signals, signalsHistory)
              == GenerateSignalsSpec(old(signalsHistory), confidenceThreshold, parameterWeights,
                                     symbol, chain, underlying, now, ids)
    {
      if chain == [] {
        return [];
      }
      var analysis := AnalyzeMarketParameters(chain, underlying);
      if !IsTradingTime(now) {
        return [];
      }
      var emitted := EmitSignals(analysis, confidenceThreshold, symbol, underlying, now, ids);
      signalsHistory := KeepRecent(signalsHistory + emitted);
      signals := SortDesc(emitted, SignalConfidence);
    }

    /** `optimize_weights`: below 50 records nothing changes; otherwise the
        weights become the normalised new weights over the last 100 records,
        unless their total is 0, when the division fails and nothing changes. */
    method OptimizeWeights()
      requires Valid()
      modifies this`parameterWeights
      ensures Valid()
      ensures parameterWeights == OptimizedWeights(learningData, old(parameterWeights))
    {
      if |learningData| < 50 {
        return;
      }
      var recent := LastN(learningData, 100);
      var newWeights, total := NewWeights(recent, parameterWeights);
      if total == 0.0 {
        return;
      }
      RawWeightsLookup(recent, parameterWeights, |WeightNames|);
      var normalized := NormalizeWeights(newWeights, total);
      parameterWeights := normalized;
    }

    /** `learn_from_outcome`: the first stored signal with the identifier, if
        any, is recorded with its outcome, and every 30th record re-optimises
        the weights. */
    method LearnFromOutcome(signalId: string, actualOutcome: string, pnl: real, now: DateTime)
      requires Valid()
      modifies this`learningData, this`parameterWeights
      ensures Valid()
      ensures (learningData, parameterWeights)
              == Learn(signalsHistory, old(learningData), old(parameterWeights), signalId, actualOutcome, pnl, now)
    {
      var found: Option<Signal> := None;
      var i := 0;
      while i < |signalsHistory| && found.None?
        invariant 0 <= i <= |signalsHistory|
        invariant found.None? ==> FindSignal(signalsHistory, signalId) == FindSignal(signalsHistory[i..], signalId)
        invariant found.Some? ==> found == FindSignal(signalsHistory, signalId)
      {
        assert signalsHistory[i..][1..] == signalsHistory[i + 1..];
        if signalsHistory[i].id == signalId {
          found := Some(signalsHistory[i]);
        }
        i := i + 1;
      }
      match found {
        case None =>
        case Some(s) =>
          learningData := learningData + [RecordFor(s, actualOutcome, pnl, now)];
          if |learningData| % 30 == 0 {
            OptimizeWeights();
          }
      }
    }

    /** `get_accuracy`, counting over the last 100 records. */
    method GetAccuracy() returns (accuracy: real)
      ensures accuracy == Accuracy(learningData)
    {
      if |learningData| < 10 {
        return 68.0;
      }
      var recent := LastN(learningData, 100);
      if |recent| < 10 {
        return 70.0;
      }
      var correct, highCorrect, highTotal := CountOutcomes(recent);
      var base := correct as real / |recent| as real * 100.0;
      if highTotal > 5 {
        var highAccuracy := highCorrect as real / highTotal as real * 100.0;
        accuracy := Min(95.0, base * 0.6 + highAccuracy * 0.4);
      } else {
        accuracy := Min(92.0, base + 5.0);
      }
    }

    /** `get_learning_progress`: one accuracy per window of 20 records, the
        windows ending 5 records apart. */
    method GetLearningProgress() returns (progress: seq<real>)
      ensures progress == LearningProgress(learningData)
    {
      if |learningData| < 10 {
        return [];
      }
      progress := [];
      var i := Window;
      while i < |learningData|
        invariant i >= Window
        invariant progress + ProgressFrom(learningData, i) == ProgressFrom(learningData, Window)
        decreases |learningData| - i
      {
        var correct := CountCorrect(learningData[i - Window..i]);
        var accuracy := correct as real / Window as real * 100.0;
        assert ProgressFrom(learningData, i) == [accuracy] + ProgressFrom(learningData, i + 5);
        progress := progress + [accuracy];
        i := i + 5;
      }
    }
  }
}
