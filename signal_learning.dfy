/** The learning half of `SignalEngine` in `core/signals.py`: outcome records,
    the weight optimiser, the accuracy estimate, the rolling learning
    progress and the filtered view of the signal history, each as a function
    of the engine's lists. */
module SignalLearning {
  import opened Common
  import opened Calendar
  import opened Sorting
  import opened SignalScoring

  /** One element of `learning_data`. */
  datatype LearningRecord = LearningRecord(
    signalId: string, parameters: Scores, predictedConfidence: real,
    actualOutcome: string, pnl: real, timestamp: DateTime, symbol: string, action: Action)

  /** `next((s for s in history if s['id'] == id), None)`. */
  function FindSignal(history: seq<Signal>, id: string): (r: Option<Signal>)
    ensures r.None? <==> forall i :: 0 <= i < |history| ==> history[i].id != id
    ensures r.Some? ==> exists i :: 0 <= i < |history| && history[i] == r.value && r.value.id == id
                                   && forall k :: 0 <= k < i ==> history[k].id != id
  {
    if history == [] then None
    else if history[0].id == id then Some(history[0])
    else
      var r := FindSignal(history[1..], id);
      assert forall i :: 1 <= i < |history| ==> history[i] == history[1..][i - 1];
      r
  }

  function RecordFor(s: Signal, actualOutcome: string, pnl: real, now: DateTime): LearningRecord {
    LearningRecord(s.id, s.parameters, s.confidence, actualOutcome, pnl, now, s.symbol, s.action)
  }

  // ------------------------------------------------------ optimize_weights

  datatype ScorePnl = ScorePnl(score: real, pnl: real)

  /** `param_performance[name]` after the records: one (score, pnl) pair per
      record whose parameters hold the key `name + "_score"`. */
  function PerformanceOf(recs: seq<LearningRecord>, name: string): (r: seq<ScorePnl>)
    ensures |r| <= |recs|
  {
    if recs == [] then []
    else
      var last := recs[|recs| - 1];
      PerformanceOf(recs[..|recs| - 1], name)
      + (match LookupScore(last.parameters, ScoreKey(name))
         case Some(v) => [ScorePnl(v, last.pnl)]
         case None => [])
  }

  /** The profits of the pairs whose score exceeds 0.6, in order. */
  function HighScorePnl(data: seq<ScorePnl>): seq<real> {
    if data == [] then []
    else
      var last := data[|data| - 1];
      HighScorePnl(data[..|data| - 1]) + (if last.score > 0.6 then [last.pnl] else [])
  }

  function SumOf(xs: seq<real>): real {
    if xs == [] then 0.0 else SumOf(xs[..|xs| - 1]) + xs[|xs| - 1]
  }

  /** The new raw weight of one parameter: clamp(mean profit / 1000 + 0.15)
      into [0.05, 0.35] when some pair scored high, the old weight otherwise. */
  function RawWeight(data: seq<ScorePnl>, previous: real): (r: real)
    ensures HighScorePnl(data) != [] ==> 0.05 <= r <= 0.35
    ensures HighScorePnl(data) == [] ==> r == previous
  {
    var high := HighScorePnl(data);
    if high != [] then
      Max(0.05, Min(0.35, SumOf(high) / |high| as real / 1000.0 + 0.15))
    else previous
  }

  predicate HasWeightNames(w: map<string, real>) {
    forall i :: 0 <= i < |WeightNames| ==> WeightNames[i] in w
  }

  /** The data gathered for the `i`-th parameter name. */
  function DataOf(recent: seq<LearningRecord>, i: nat): seq<ScorePnl>
    requires i < |WeightNames|
  {
    PerformanceOf(recent, WeightNames[i])
  }

  /** The `i`-th entry of `new_weights` before the division. */
  function NewRaw(recent: seq<LearningRecord>, w: map<string, real>, i: nat): real
    requires HasWeightNames(w) && i < |WeightNames|
  {
    RawWeight(DataOf(recent, i), w[WeightNames[i]])
  }

  /** What the `i`-th name adds to `total_weight`: nothing when it has no data. */
  function Part(recent: seq<LearningRecord>, w: map<string, real>, i: nat): real
    requires HasWeightNames(w) && i < |WeightNames|
  {
    if DataOf(recent, i) == [] then 0.0 else NewRaw(recent, w, i)
  }

  /** `new_weights` after the first `k` parameter names. */
  function RawWeightsUpTo(recent: seq<LearningRecord>, w: map<string, real>, k: nat): (r: map<string, real>)
    requires HasWeightNames(w) && k <= |WeightNames|
    ensures forall i :: 0 <= i < k ==> WeightNames[i] in r
  {
    if k == 0 then map[]
    else RawWeightsUpTo(recent, w, k - 1)[WeightNames[k - 1] := NewRaw(recent, w, k - 1)]
  }

  /** `total_weight` after the first `k` parameter names. */
  function TotalUpTo(recent: seq<LearningRecord>, w: map<string, real>, k: nat): real
    requires HasWeightNames(w) && k <= |WeightNames|
  {
    if k == 0 then 0.0 else TotalUpTo(recent, w, k - 1) + Part(recent, w, k - 1)
  }

  /** `optimize_weights`: nothing below 50 records; otherwise the raw weights
      over the last 100 records divided by their total, unless the total is 0
      (the division error is caught and the weights stay). */
  function OptimizedWeights(data: seq<LearningRecord>, w: map<string, real>): (r: map<string, real>)
    requires HasWeightNames(w)
    ensures HasWeightNames(r)
    ensures |data| < 50 ==> r == w
  {
    if |data| < 50 then w
    else
      var recent := LastN(data, 100);
      var raw := RawWeightsUpTo(recent, w, 7);
      var total := TotalUpTo(recent, w, 7);
      if total == 0.0 then w else Normalize(raw, total)
  }

  /** The six weights of the parameters that have a score key. */
  function DataWeightSum(m: map<string, real>): real
    requires HasWeightNames(m)
  {
    m[WeightNames[0]] + m[WeightNames[2]] + m[WeightNames[3]] + m[WeightNames[4]]
    + m[WeightNames[5]] + m[WeightNames[6]]
  }

  lemma WeightNamesDistinct()
    ensures forall a, b :: 0 <= a < b < |WeightNames| ==> WeightNames[a] != WeightNames[b]
  {
    forall a, b | 0 <= a < b < |WeightNames| ensures WeightNames[a] != WeightNames[b] {
      if |WeightNames[a]| == |WeightNames[b]| {
        assert WeightNames[a][0] != WeightNames[b][0];
      }
    }
  }

  /** Each name's entry of `new_weights` is computed from that name's own data. */
  lemma {:induction false} RawWeightsLookup(recent: seq<LearningRecord>, w: map<string, real>, k: nat)
    requires HasWeightNames(w) && k <= |WeightNames|
    ensures forall i :: 0 <= i < k ==> RawWeightsUpTo(recent, w, k)[WeightNames[i]] == NewRaw(recent, w, i)
    ensures RawWeightsUpTo(recent, w, k).Keys == (set i | 0 <= i < k :: WeightNames[i])
  {
    if k > 0 {
      RawWeightsLookup(recent, w, k - 1);
      WeightNamesDistinct();
    }
  }

  /** Only the six names with a score key collect data: `oi_change` looks for
      `oi_change_score`, which the parameters never hold. */
  lemma {:induction false} PerformanceShape(recs: seq<LearningRecord>, name: string)
    ensures name == "oi_change" ==> PerformanceOf(recs, name) == []
    ensures name in ScoreNames ==> |PerformanceOf(recs, name)| == |recs|
  {
    if recs != [] {
      PerformanceShape(recs[..|recs| - 1], name);
      var p := recs[|recs| - 1].parameters;
      if name == "oi_change" {
        var key := ScoreKey(name);
        forall i | 0 <= i < 7 ensures ScoreKeys()[i] != key {
          if i == 6 {
            assert ScoreKeys()[i][0] != key[0];
          } else {
            assert |ScoreKeys()[i]| != |key|;
          }
        }
        assert LookupScore(p, key).None?;
      }
      if name in ScoreNames {
        var i :| 0 <= i < 7 && ScoreNames[i] == name;
        assert ScoreKeys()[i] == ScoreKey(name);
        assert LookupScore(p, ScoreKey(name)).Some?;
      }
    }
  }

  lemma DataShape(recent: seq<LearningRecord>, i: nat)
    requires recent != [] && i < |WeightNames|
    ensures DataOf(recent, i) == [] <==> i == 1
    ensures i != 1 ==> |DataOf(recent, i)| == |recent|
  {
    if i != 1 {
      assert WeightNames[i] == ScoreNames[i];
    }
    PerformanceShape(recent, WeightNames[i]);
  }

  /** The six new raw weights that enter the total. */
  function SixRaw(recent: seq<LearningRecord>, w: map<string, real>): real
    requires HasWeightNames(w)
  {
    NewRaw(recent, w, 0) + NewRaw(recent, w, 2) + NewRaw(recent, w, 3) + NewRaw(recent, w, 4)
    + NewRaw(recent, w, 5) + NewRaw(recent, w, 6)
  }

  lemma TotalIsSixRaw(recent: seq<LearningRecord>, w: map<string, real>)
    requires HasWeightNames(w) && recent != []
    ensures TotalUpTo(recent, w, 7) == SixRaw(recent, w)
  {
    DataShape(recent, 0);
    DataShape(recent, 1);
    DataShape(recent, 2);
    DataShape(recent, 3);
    DataShape(recent, 4);
    DataShape(recent, 5);
    DataShape(recent, 6);
    assert Part(recent, w, 1) == 0.0;
    assert TotalUpTo(recent, w, 1) == Part(recent, w, 0);
    assert TotalUpTo(recent, w, 2) == Part(recent, w, 0);
    assert TotalUpTo(recent, w, 3) == Part(recent, w, 0) + Part(recent, w, 2);
    assert TotalUpTo(recent, w, 4) == Part(recent, w, 0) + Part(recent, w, 2) + Part(recent, w, 3);
    assert TotalUpTo(recent, w, 5) == TotalUpTo(recent, w, 4) + Part(recent, w, 4);
    assert TotalUpTo(recent, w, 6) == TotalUpTo(recent, w, 5) + Part(recent, w, 5);
    assert TotalUpTo(recent, w, 7) == TotalUpTo(recent, w, 6) + Part(recent, w, 6);
  }

  /** With at least one record, `total_weight` is the sum of the six new
      weights other than `oi_change`'s. */
  lemma TotalIsDataWeightSum(recent: seq<LearningRecord>, w: map<string, real>)
    requires HasWeightNames(w) && recent != []
    ensures TotalUpTo(recent, w, 7) == DataWeightSum(RawWeightsUpTo(recent, w, 7))
  {
    RawWeightsLookup(recent, w, 7);
    TotalIsSixRaw(recent, w);
  }

  /** Six shares of their own total sum to 1. */
  lemma SharesSumToOne(a: real, b: real, c: real, d: real, e: real, f: real, t: real)
    requires t == a + b + c + d + e + f && t != 0.0
    ensures a / t + b / t + c / t + d / t + e / t + f / t == 1.0
  {
    assert a / t + b / t == (a + b) / t;
    assert (a + b) / t + c / t == (a + b + c) / t;
    assert (a + b + c) / t + d / t == (a + b + c + d) / t;
    assert (a + b + c + d) / t + e / t == (a + b + c + d + e) / t;
    assert (a + b + c + d + e) / t + f / t == t / t;
  }

  /** Division of every weight by the total. */
  function Normalize(raw: map<string, real>, t: real): (r: map<string, real>)
    requires t != 0.0
    ensures r.Keys == raw.Keys
    ensures forall n :: n in raw ==> r[n] == raw[n] / t
  {
    map n | n in raw :: raw[n] / t
  }

  lemma NormalizeSum(raw: map<string, real>, t: real)
    requires HasWeightNames(raw) && t == DataWeightSum(raw) && t != 0.0
    ensures HasWeightNames(Normalize(raw, t))
    ensures DataWeightSum(Normalize(raw, t)) == 1.0
  {
    SharesSumToOne(raw[WeightNames[0]], raw[WeightNames[2]], raw[WeightNames[3]],
                   raw[WeightNames[4]], raw[WeightNames[5]], raw[WeightNames[6]], t);
  }

  /** The weight of `oi_change`, which has no data, is its old one. */
  lemma OiChangeKept(recent: seq<LearningRecord>, w: map<string, real>)
    requires HasWeightNames(w) && recent != []
    ensures RawWeightsUpTo(recent, w, 7)[WeightNames[1]] == w[WeightNames[1]]
  {
    RawWeightsLookup(recent, w, 7);
    DataShape(recent, 1);
  }

  /** After an optimisation the six weights that entered the total sum to 1,
      while `oi_change` keeps its old weight divided by the total, so all seven
      together exceed 1 whenever its old weight and the total are positive. */
  lemma OptimizedWeightsSum(data: seq<LearningRecord>, w: map<string, real>)
    requires HasWeightNames(w) && |data| >= 50
    requires TotalUpTo(LastN(data, 100), w, 7) != 0.0
    ensures HasWeightNames(OptimizedWeights(data, w))
    ensures DataWeightSum(OptimizedWeights(data, w)) == 1.0
    ensures OptimizedWeights(data, w)[WeightNames[1]] == w[WeightNames[1]] / TotalUpTo(LastN(data, 100), w, 7)
    ensures w[WeightNames[1]] > 0.0 && TotalUpTo(LastN(data, 100), w, 7) > 0.0 ==>
              DataWeightSum(OptimizedWeights(data, w)) + OptimizedWeights(data, w)[WeightNames[1]] > 1.0
  {
    var recent := LastN(data, 100);
    var raw := RawWeightsUpTo(recent, w, 7);
    var t := TotalUpTo(recent, w, 7);
    assert OptimizedWeights(data, w) == Normalize(raw, t);
    TotalIsDataWeightSum(recent, w);
    OiChangeKept(recent, w);
    NormalizeSum(raw, t);
  }

  /** For a parameter other than `oi_change`, an optimisation gathers one
      (score, profit) pair per recent record, and the parameter's new weight
      is its `RawWeight` (the clamped mean profit of the high-score pairs, or
      the old weight when there are none) over the total. */
  lemma OptimizedParameterWeight(data: seq<LearningRecord>, w: map<string, real>, i: nat)
    requires HasWeightNames(w) && |data| >= 50 && 0 <= i < 7 && i != 1
    requires TotalUpTo(LastN(data, 100), w, 7) != 0.0
    ensures |DataOf(LastN(data, 100), i)| == (if |data| < 100 then |data| else 100)
    ensures OptimizedWeights(data, w)[WeightNames[i]]
            == RawWeight(DataOf(LastN(data, 100), i), w[WeightNames[i]]) / TotalUpTo(LastN(data, 100), w, 7)
  {
    var recent := LastN(data, 100);
    var raw := RawWeightsUpTo(recent, w, 7);
    var t := TotalUpTo(recent, w, 7);
    assert OptimizedWeights(data, w) == Normalize(raw, t);
    assert raw[WeightNames[i]] == NewRaw(recent, w, i) by {
      RawWeightsLookup(recent, w, 7);
    }
    assert |DataOf(recent, i)| == |recent| by {
      DataShape(recent, i);
    }
  }

  /** Only the last 100 records matter. */
  lemma OptimizeReadsLast100(older: seq<LearningRecord>, data: seq<LearningRecord>, w: map<string, real>)
    requires HasWeightNames(w) && |data| >= 100
    ensures OptimizedWeights(older + data, w) == OptimizedWeights(data, w)
  {
    var all := older + data;
    assert all[|all| - 100..] == data[|data| - 100..];
  }

  /** Weights are positive when the old ones are. */
  lemma {:induction false} RawWeightsPositive(recent: seq<LearningRecord>, w: map<string, real>, k: nat)
    requires HasWeightNames(w) && k <= |WeightNames|
    requires forall n :: n in w ==> w[n] > 0.0
    ensures forall n :: n in RawWeightsUpTo(recent, w, k) ==> RawWeightsUpTo(recent, w, k)[n] > 0.0
  {
    if k > 0 {
      RawWeightsPositive(recent, w, k - 1);
    }
  }

  /** Positive weights stay positive: every new raw weight is then positive,
      so the total is positive and the division never fails. */
  lemma OptimizeKeepsPositive(data: seq<LearningRecord>, w: map<string, real>)
    requires HasWeightNames(w)
    requires forall n :: n in w ==> w[n] > 0.0
    ensures forall n :: n in OptimizedWeights(data, w) ==> OptimizedWeights(data, w)[n] > 0.0
    ensures |data| >= 50 ==> TotalUpTo(LastN(data, 100), w, 7) > 0.0
  {
    if |data| >= 50 {
      var recent := LastN(data, 100);
      var raw := RawWeightsUpTo(recent, w, 7);
      RawWeightsPositive(recent, w, 7);
      TotalIsDataWeightSum(recent, w);
      assert DataWeightSum(raw) > 0.0;
    }
  }

  // ------------------------------------------------------------ accuracy

  /** A prediction is right when "confidence above 70" agrees with "profit". */
  predicate Correct(r: LearningRecord) {
    (r.predictedConfidence > 70.0) == (r.pnl > 0.0)
  }

  predicate HighConfidence(r: LearningRecord) {
    r.predictedConfidence > 75.0
  }

  function CountCorrect(recs: seq<LearningRecord>): (n: nat)
    ensures n <= |recs|
  {
    if recs == [] then 0 else CountCorrect(recs[..|recs| - 1]) + (if Correct(recs[|recs| - 1]) then 1 else 0)
  }

  function CountHigh(recs: seq<LearningRecord>): (n: nat)
    ensures n <= |recs|
  {
    if recs == [] then 0 else CountHigh(recs[..|recs| - 1]) + (if HighConfidence(recs[|recs| - 1]) then 1 else 0)
  }

  function CountHighCorrect(recs: seq<LearningRecord>): (n: nat)
    ensures n <= CountHigh(recs) && n <= CountCorrect(recs)
  {
    if recs == [] then 0
    else
      var last := recs[|recs| - 1];
      CountHighCorrect(recs[..|recs| - 1]) + (if HighConfidence(last) && Correct(last) then 1 else 0)
  }

  /** `get_accuracy`: 68 below 10 records; otherwise over the last 100 the
      share of right predictions, blended 60/40 with the share among
      high-confidence ones when there are more than 5 of those (capped at 95),
      else raised by 5 (capped at 92). */
  function Accuracy(data: seq<LearningRecord>): real {
    if |data| < 10 then 68.0
    else
      var recent := LastN(data, 100);
      if |recent| < 10 then 70.0
      else
        var base := CountCorrect(recent) as real / |recent| as real * 100.0;
        var high := CountHigh(recent);
        if high > 5 then
          Min(95.0, base * 0.6 + CountHighCorrect(recent) as real / high as real * 100.0 * 0.4)
        else Min(92.0, base + 5.0)
  }

  /** The estimate lies in [0, 95]; with few high-confidence records it is at
      least 5 and at most 92; the branch for fewer than 10 recent records is
      never taken once there are 10 records. */
  lemma AccuracyRange(data: seq<LearningRecord>)
    ensures 0.0 <= Accuracy(data) <= 95.0
    ensures |data| >= 10 ==> |LastN(data, 100)| >= 10
    ensures |data| >= 10 && CountHigh(LastN(data, 100)) <= 5 ==> 5.0 <= Accuracy(data) <= 92.0
  {
    if |data| >= 10 {
      var recent := LastN(data, 100);
      RatioInUnit(CountCorrect(recent), |recent|);
      if CountHigh(recent) > 5 {
        RatioInUnit(CountHighCorrect(recent), CountHigh(recent));
      }
    }
  }

  // ------------------------------------------------------ learning progress

  const Window: nat := 20

  /** The accuracy of the 20 records before position `i`. */
  function WindowAccuracy(data: seq<LearningRecord>, i: nat): real
    requires Window <= i <= |data|
  {
    CountCorrect(data[i - Window..i]) as real / Window as real * 100.0
  }

  /** The windows ending at `i`, `i + 5`, ... while below the record count. */
  function ProgressFrom(data: seq<LearningRecord>, i: nat): seq<real>
    requires i >= Window
    decreases |data| - i
  {
    if i >= |data| then [] else [WindowAccuracy(data, i)] + ProgressFrom(data, i + 5)
  }

  /** `get_learning_progress`. */
  function LearningProgress(data: seq<LearningRecord>): seq<real> {
    if |data| < 10 then [] else ProgressFrom(data, Window)
  }

  lemma {:induction false} ProgressFromShape(data: seq<LearningRecord>, i: nat)
    requires i >= Window
    ensures var p := ProgressFrom(data, i);
      && |p| == (if i < |data| then (|data| - i + 4) / 5 else 0)
      && (forall k :: 0 <= k < |p| ==>
            i + 5 * k < |data| && p[k] == WindowAccuracy(data, i + 5 * k) && 0.0 <= p[k] <= 100.0)
    decreases |data| - i
  {
    if i < |data| {
      ProgressFromShape(data, i + 5);
      var p := ProgressFrom(data, i);
      RatioInUnit(CountCorrect(data[i - Window..i]), Window);
      forall k | 0 <= k < |p|
        ensures i + 5 * k < |data| && p[k] == WindowAccuracy(data, i + 5 * k) && 0.0 <= p[k] <= 100.0
      {
        if k > 0 {
          assert p[k] == ProgressFrom(data, i + 5)[k - 1];
          assert i + 5 + 5 * (k - 1) == i + 5 * k;
        }
      }
    }
  }

  /** One point per window of 20 records ending at 20, 25, ... below the
      record count, each a percentage; none below 10 records, which also means
      none up to 20 records. */
  lemma LearningProgressShape(data: seq<LearningRecord>)
    ensures var p := LearningProgress(data);
      && |p| == (if |data| > Window then (|data| - Window + 4) / 5 else 0)
      && (forall k :: 0 <= k < |p| ==>
            Window + 5 * k < |data| && p[k] == WindowAccuracy(data, Window + 5 * k) && 0.0 <= p[k] <= 100.0)
  {
    if |data| >= 10 {
      assert LearningProgress(data) == ProgressFrom(data, Window);
      ProgressFromShape(data, Window);
    } else {
      assert LearningProgress(data) == [];
    }
  }

  // ------------------------------------------------------ filtered history

  function SignalTime(s: Signal): real {
    Instant(s.timestamp) as real
  }

  /** `[s for s in xs if p(s)]`. */
  function Where(xs: seq<Signal>, p: Signal -> bool): (r: seq<Signal>)
    ensures forall s :: s in r ==> s in xs && p(s)
    ensures forall s :: s in xs && p(s) ==> s in r
    ensures multiset(r) <= multiset(xs)
  {
    if xs == [] then []
    else
      assert xs == [xs[0]] + xs[1..];
      (if p(xs[0]) then [xs[0]] else []) + Where(xs[1..], p)
  }

  predicate Matches(s: Signal, symbol: string, action: string, minConfidence: real) {
    && (symbol == "" || s.symbol == symbol)
    && (action == "" || ActionName(s.action) == action)
    && (minConfidence == 0.0 || s.confidence / 100.0 >= minConfidence)
  }

  /** The symbol filter, off when the symbol is empty (falsy in Python). */
  function BySymbol(xs: seq<Signal>, symbol: string): (r: seq<Signal>)
    ensures forall s :: s in r <==> s in xs && (symbol == "" || s.symbol == symbol)
    ensures multiset(r) <= multiset(xs)
  {
    if symbol != "" then Where(xs, (s: Signal) => s.symbol == symbol) else xs
  }

  /** The action filter, off when the action is empty. */
  function ByAction(xs: seq<Signal>, action: string): (r: seq<Signal>)
    ensures forall s :: s in r <==> s in xs && (action == "" || ActionName(s.action) == action)
    ensures multiset(r) <= multiset(xs)
  {
    if action != "" then Where(xs, (s: Signal) => ActionName(s.action) == action) else xs
  }

  /** The confidence filter on the percentage over 100, off when the minimum is 0. */
  function ByConfidence(xs: seq<Signal>, minConfidence: real): (r: seq<Signal>)
    ensures forall s :: s in r <==> s in xs && (minConfidence == 0.0 || s.confidence / 100.0 >= minConfidence)
    ensures multiset(r) <= multiset(xs)
  {
    if minConfidence != 0.0 then Where(xs, (s: Signal) => s.confidence / 100.0 >= minConfidence) else xs
  }

  /** The signals passing the filters that are set, in history order. */
  function Matching(history: seq<Signal>, symbol: string, action: string, minConfidence: real): (r: seq<Signal>)
    ensures forall s :: s in r <==> s in history && Matches(s, symbol, action, minConfidence)
    ensures multiset(r) <= multiset(history)
  {
    ByConfidence(ByAction(BySymbol(history, symbol), action), minConfidence)
  }

  /** `get_signals_with_filters`: the matching signals, newest first, at most 50. */
  function SignalsWithFilters(history: seq<Signal>, symbol: string, action: string, minConfidence: real): seq<Signal> {
    TopN(Matching(history, symbol, action, minConfidence), SignalTime, 50)
  }

  /** At most 50 results, newest first, each a history signal passing every
      filter that is set; when no more than 50 signals match, all of them are
      returned. */
  lemma SignalsWithFiltersProperties(history: seq<Signal>, symbol: string, action: string, minConfidence: real)
    ensures |SignalsWithFilters(history, symbol, action, minConfidence)| <= 50
    ensures NonIncreasing(SignalsWithFilters(history, symbol, action, minConfidence), SignalTime)
    ensures forall s :: s in SignalsWithFilters(history, symbol, action, minConfidence) ==>
              s in history && Matches(s, symbol, action, minConfidence)
    ensures |Matching(history, symbol, action, minConfidence)| <= 50 ==>
              multiset(SignalsWithFilters(history, symbol, action, minConfidence))
              == multiset(Matching(history, symbol, action, minConfidence))
  {
    TopNProperties(Matching(history, symbol, action, minConfidence), SignalTime, 50);
  }

  // ---------------------------------------------------- learn_from_outcome

  /** `learn_from_outcome` on the engine's learning data and weights: nothing
      for an unknown signal id; otherwise one record appended, and when the
      new length is a multiple of 30 the weights are re-optimised (the model
      retraining that also happens there is not part of this model). */
  function Learn(history: seq<Signal>, data: seq<LearningRecord>, w: map<string, real>,
                 signalId: string, actualOutcome: string, pnl: real, now: DateTime): (seq<LearningRecord>, map<string, real>)
    requires HasWeightNames(w)
  {
    match FindSignal(history, signalId)
    case None => (data, w)
    case Some(s) =>
      var data' := data + [RecordFor(s, actualOutcome, pnl, now)];
      (data', if |data'| % 30 == 0 then OptimizedWeights(data', w) else w)
  }

  /** An unknown id changes nothing; a known one appends exactly one record
      built from the first signal with that id, with no check for an earlier
      record of the same outcome, so repeating the call appends again. */
  lemma LearnProperties(history: seq<Signal>, data: seq<LearningRecord>, w: map<string, real>,
                        signalId: string, actualOutcome: string, pnl: real, now: DateTime)
    requires HasWeightNames(w)
    ensures var (d1, w1) := Learn(history, data, w, signalId, actualOutcome, pnl, now);
      && ((forall i :: 0 <= i < |history| ==> history[i].id != signalId) ==> d1 == data && w1 == w)
      && ((exists i :: 0 <= i < |history| && history[i].id == signalId) ==>
            && |d1| == |data| + 1 && d1[..|data|] == data
            && d1[|data|].signalId == signalId && d1[|data|].pnl == pnl
            && d1[|data|].actualOutcome == actualOutcome
            && (|d1| % 30 != 0 ==> w1 == w)
            && (HasWeightNames(w1) ==>
                  var (d2, _) := Learn(history, d1, w1, signalId, actualOutcome, pnl, now);
                  |d2| == |data| + 2 && d2[|data|] == d2[|data| + 1]))
  {
    match FindSignal(history, signalId)
    case None =>
    case Some(s) =>
      var d1 := data + [RecordFor(s, actualOutcome, pnl, now)];
      assert d1[..|data|] == data;
  }
}
