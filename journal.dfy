/** The trade journal's analytics in `core/journal.py`: the longest winning or
    losing streak, the maximum drawdown of the cumulative P&L, and the counts,
    rates and profit factor of the trade analysis. The trades are given as a
    list in place of the journal's SQLite query. */
module Journal {
  import opened Common
  import opened Calendar
  import opened Sorting
  import opened Stats

  datatype JournalTrade = JournalTrade(entryTime: DateTime, pnl: real, status: string, confidence: real)

  function EntryKey(t: JournalTrade): real {
    Instant(t.entryTime) as real
  }

  /** `df.sort_values('entry_time')`. */
  function ByEntryTime(trades: seq<JournalTrade>): seq<JournalTrade> {
    SortAsc(trades, EntryKey)
  }

  function Pnls(trades: seq<JournalTrade>): (r: seq<real>)
    ensures |r| == |trades|
  {
    seq(|trades|, i requires 0 <= i < |trades| => trades[i].pnl)
  }

  // ------------------------------------------------------------ streaks

  /** Whether each trade counts toward the streak: a gain for 'win', a loss for
      any other streak type. */
  function Qualifying(trades: seq<JournalTrade>, streakType: string): (r: seq<bool>)
    ensures |r| == |trades|
  {
    seq(|trades|, i requires 0 <= i < |trades| =>
      if streakType == "win" then trades[i].pnl > 0.0 else trades[i].pnl < 0.0)
  }

  function MaxNat(a: nat, b: nat): nat {
    if a >= b then a else b
  }

  /** The length of the run of `true` that ends `bs`. */
  function TrailingRun(bs: seq<bool>): nat {
    if bs == [] then 0
    else if bs[|bs| - 1] then TrailingRun(bs[..|bs| - 1]) + 1
    else 0
  }

  /** The longest run of `true` anywhere in `bs`. */
  function LongestRun(bs: seq<bool>): nat {
    if bs == [] then 0 else MaxNat(LongestRun(bs[..|bs| - 1]), TrailingRun(bs))
  }

  /** Python's `max(streaks)` on a list of counts, 0 for no counts. */
  function MaxOrZero(s: seq<nat>): nat {
    if s == [] then 0 else MaxNat(MaxOrZero(s[..|s| - 1]), s[|s| - 1])
  }

  ghost predicate AllTrue(bs: seq<bool>, i: int, j: int)
    requires 0 <= i <= j <= |bs|
  {
    forall k :: i <= k < j ==> bs[k]
  }

  /** `bs` holds a run of `len` consecutive `true` values starting at `i`. */
  ghost predicate RunAt(bs: seq<bool>, i: int, len: nat) {
    0 <= i && i + len <= |bs| && forall k :: i <= k < i + len ==> bs[k]
  }

  lemma {:induction false} TrailingRunIsLongestSuffix(bs: seq<bool>)
    ensures TrailingRun(bs) <= |bs|
    ensures AllTrue(bs, |bs| - TrailingRun(bs), |bs|)
    ensures forall i :: 0 <= i <= |bs| && AllTrue(bs, i, |bs|) ==> |bs| - i <= TrailingRun(bs)
  {
    if bs != [] {
      var n := |bs|;
      var init := bs[..n - 1];
      TrailingRunIsLongestSuffix(init);
      forall i | 0 <= i <= n && AllTrue(bs, i, n) ensures n - i <= TrailingRun(bs) {
        if i < n {
          assert bs[n - 1];
          assert AllTrue(init, i, n - 1) by {
            forall k | i <= k < n - 1 ensures init[k] {
              assert init[k] == bs[k];
            }
          }
        }
      }
      if bs[n - 1] {
        var t := TrailingRun(init);
        forall k | n - 1 - t <= k < n ensures bs[k] {
          if k < n - 1 {
            assert init[k] == bs[k];
          }
        }
      }
    }
  }

  /** `LongestRun` is the length of the longest stretch of consecutive `true`
      values: every such stretch is no longer, and one is that long. */
  lemma {:induction false} LongestRunIsLongest(bs: seq<bool>)
    ensures LongestRun(bs) <= |bs|
    ensures forall i, j :: 0 <= i <= j <= |bs| && AllTrue(bs, i, j) ==> j - i <= LongestRun(bs)
    ensures exists i :: RunAt(bs, i, LongestRun(bs))
  {
    if bs == [] {
      assert RunAt(bs, 0, 0);
    } else {
      var n := |bs|;
      var init := bs[..n - 1];
      LongestRunIsLongest(init);
      TrailingRunIsLongestSuffix(bs);
      forall i, j | 0 <= i <= j <= n && AllTrue(bs, i, j) ensures j - i <= LongestRun(bs) {
        if j < n {
          assert AllTrue(init, i, j) by {
            forall k | i <= k < j ensures init[k] {
              assert init[k] == bs[k];
            }
          }
        }
      }
      if LongestRun(bs) == LongestRun(init) {
        var i :| RunAt(init, i, LongestRun(init));
        assert RunAt(bs, i, LongestRun(bs)) by {
          forall k | i <= k < i + LongestRun(bs) ensures bs[k] {
            assert init[k] == bs[k];
          }
        }
      } else {
        assert AllTrue(bs, n - LongestRun(bs), n);
        assert RunAt(bs, n - LongestRun(bs), LongestRun(bs));
      }
    }
  }

  /** The streak is 0 exactly when no trade qualifies. */
  lemma LongestRunZero(bs: seq<bool>)
    ensures LongestRun(bs) == 0 <==> forall k :: 0 <= k < |bs| ==> !bs[k]
  {
    LongestRunIsLongest(bs);
    if LongestRun(bs) > 0 {
      var i :| RunAt(bs, i, LongestRun(bs));
      assert bs[i];
    }
    forall k | 0 <= k < |bs| && bs[k] ensures LongestRun(bs) >= 1 {
      assert AllTrue(bs, k, k + 1);
    }
  }

  /** `_calculate_largest_streak`: the trades in entry-time order, each run of
      qualifying trades recorded when it ends, and the largest run returned. */
  method LargestStreak(trades: seq<JournalTrade>, streakType: string) returns (streak: nat)
    ensures streak == LongestRun(Qualifying(ByEntryTime(trades), streakType))
  {
    if trades == [] {
      return 0;
    }
    var wins := Qualifying(ByEntryTime(trades), streakType);
    var streaks: seq<nat> := [];
    var current: nat := 0;
    for i := 0 to |wins|
      invariant current == TrailingRun(wins[..i])
      invariant MaxNat(MaxOrZero(streaks), current) == LongestRun(wins[..i])
    {
      assert wins[..i + 1][..i] == wins[..i];
      if wins[i] {
        current := current + 1;
      } else {
        if current > 0 {
          assert (streaks + [current])[..|streaks|] == streaks;
          streaks := streaks + [current];
        }
        current := 0;
      }
    }
    assert wins[..|wins|] == wins;
    if current > 0 {
      assert (streaks + [current])[..|streaks|] == streaks;
      streaks := streaks + [current];
    }
    streak := if streaks != [] then MaxOrZero(streaks) else 0;
  }

  /** At most one streak per trade, and 0 exactly when no trade qualifies. */
  lemma LargestStreakBounds(trades: seq<JournalTrade>, streakType: string)
    ensures var bs := Qualifying(ByEntryTime(trades), streakType);
      && LongestRun(bs) <= |trades|
      && (LongestRun(bs) == 0 <==> forall k :: 0 <= k < |bs| ==> !bs[k])
  {
    var bs := Qualifying(ByEntryTime(trades), streakType);
    LongestRunIsLongest(bs);
    LongestRunZero(bs);
  }

  // ------------------------------------------------------------ drawdown

  /** The cumulative P&L after the first `j` trades. */
  function Cum(xs: seq<real>, j: nat): real
    requires j <= |xs|
  {
    if j == 0 then 0.0 else Cum(xs, j - 1) + xs[j - 1]
  }

  /** The running maximum of the cumulative P&L up to trade `j`, which starts at
      the first cumulative value. */
  function RunningMax(xs: seq<real>, j: nat): real
    requires 1 <= j <= |xs|
  {
    if j == 1 then Cum(xs, 1) else Max(RunningMax(xs, j - 1), Cum(xs, j))
  }

  /** The most negative `cumulative - running max` up to trade `j`. */
  function DeepestDrawdown(xs: seq<real>, j: nat): real
    requires 1 <= j <= |xs|
  {
    var here := Cum(xs, j) - RunningMax(xs, j);
    if j == 1 then here else Min(DeepestDrawdown(xs, j - 1), here)
  }

  /** `get_max_drawdown`: over the trades in entry-time order. */
  function MaxDrawdown(trades: seq<JournalTrade>): real {
    if trades == [] then 0.0
    else
      var xs := Pnls(ByEntryTime(trades));
      DeepestDrawdown(xs, |xs|)
  }

  lemma {:induction false} RunningMaxIsMax(xs: seq<real>, j: nat)
    requires 1 <= j <= |xs|
    ensures forall i :: 1 <= i <= j ==> Cum(xs, i) <= RunningMax(xs, j)
    ensures exists i :: 1 <= i <= j && Cum(xs, i) == RunningMax(xs, j)
  {
    if j > 1 {
      RunningMaxIsMax(xs, j - 1);
      if RunningMax(xs, j) == RunningMax(xs, j - 1) {
        var i :| 1 <= i <= j - 1 && Cum(xs, i) == RunningMax(xs, j - 1);
      } else {
        assert Cum(xs, j) == RunningMax(xs, j);
      }
    } else {
      assert Cum(xs, 1) == RunningMax(xs, 1);
    }
  }

  /** The drawdown is the deepest fall of the cumulative P&L from an earlier
      (or the same) point to a later one. */
  lemma DeepestDrawdownIsDeepestFall(xs: seq<real>, j: nat)
    requires 1 <= j <= |xs|
    ensures forall i, k :: 1 <= i <= k <= j ==> DeepestDrawdown(xs, j) <= Cum(xs, k) - Cum(xs, i)
    ensures exists i, k :: 1 <= i <= k <= j && DeepestDrawdown(xs, j) == Cum(xs, k) - Cum(xs, i)
  {
    DrawdownBelowEveryFall(xs, j);
    var i, k := DrawdownAttained(xs, j);
  }

  lemma {:induction false} DrawdownBelowEveryFall(xs: seq<real>, j: nat)
    requires 1 <= j <= |xs|
    ensures forall i, k :: 1 <= i <= k <= j ==> DeepestDrawdown(xs, j) <= Cum(xs, k) - Cum(xs, i)
  {
    RunningMaxIsMax(xs, j);
    if j > 1 {
      DrawdownBelowEveryFall(xs, j - 1);
      forall i, k | 1 <= i <= k <= j ensures DeepestDrawdown(xs, j) <= Cum(xs, k) - Cum(xs, i) {
        if k == j {
          assert Cum(xs, i) <= RunningMax(xs, j);
        }
      }
    }
  }

  lemma {:induction false} DrawdownAttained(xs: seq<real>, j: nat) returns (i: nat, k: nat)
    requires 1 <= j <= |xs|
    ensures 1 <= i <= k <= j && DeepestDrawdown(xs, j) == Cum(xs, k) - Cum(xs, i)
  {
    RunningMaxIsMax(xs, j);
    var i0 :| 1 <= i0 <= j && Cum(xs, i0) == RunningMax(xs, j);
    var here := Cum(xs, j) - Cum(xs, i0);
    assert here == Cum(xs, j) - RunningMax(xs, j);
    if j == 1 {
      i, k := i0, j;
    } else {
      i, k := DrawdownAttained(xs, j - 1);
      if DeepestDrawdown(xs, j) != DeepestDrawdown(xs, j - 1) {
        i, k := i0, j;
      }
    }
  }

  /** The drawdown is never positive, and it is the deepest fall of the
      cumulative P&L in entry-time order. */
  lemma MaxDrawdownProperties(trades: seq<JournalTrade>)
    ensures MaxDrawdown(trades) <= 0.0
    ensures trades != [] ==>
      var xs := Pnls(ByEntryTime(trades));
      && |xs| == |trades|
      && (forall i, k :: 1 <= i <= k <= |xs| ==> MaxDrawdown(trades) <= Cum(xs, k) - Cum(xs, i))
      && (exists i, k :: 1 <= i <= k <= |xs| && MaxDrawdown(trades) == Cum(xs, k) - Cum(xs, i))
  {
    if trades != [] {
      var xs := Pnls(ByEntryTime(trades));
      DeepestDrawdownIsDeepestFall(xs, |xs|);
      assert MaxDrawdown(trades) <= Cum(xs, 1) - Cum(xs, 1);
    }
  }

  /** The running maximum starts at the first trade's result rather than at
      zero, so a single losing trade is no drawdown at all. */
  lemma SingleTradeNoDrawdown(t: JournalTrade)
    ensures MaxDrawdown([t]) == 0.0
  {
    var xs := Pnls(ByEntryTime([t]));
    assert |xs| == 1;
    assert Cum(xs, 1) == Cum(xs, 0) + xs[0];
  }

  // ------------------------------------------------------------ analysis

  datatype TradeAnalysis = TradeAnalysis(
    totalTrades: nat, winningTrades: nat, losingTrades: nat, breakevenTrades: nat,
    totalPnl: real, averagePnl: real, winRate: real, bestTrade: real, worstTrade: real,
    averageWinner: real, averageLoser: real, largestWinningStreak: nat,
    largestLosingStreak: nat, avgConfidence: real, maxDrawdown: real,
    profitFactor: ProfitFactor)

  function ClosedTrades(trades: seq<JournalTrade>): (r: seq<JournalTrade>)
    ensures forall t :: t in r ==> t in trades && t.status == "closed"
    ensures |r| <= |trades|
  {
    if trades == [] then []
    else (if trades[0].status == "closed" then [trades[0]] else []) + ClosedTrades(trades[1..])
  }

  function Confidences(trades: seq<JournalTrade>): seq<real> {
    seq(|trades|, i requires 0 <= i < |trades| => trades[i].confidence)
  }

  function MeanOf(xs: seq<real>): real {
    if xs == [] then 0.0 else Sum(xs) / |xs| as real
  }

  /** `get_trade_analysis`, `None` standing for the empty result when nothing
      has closed. The streaks are taken over the closed trades, the drawdown
      over the whole history. */
  function TradeAnalysisOf(trades: seq<JournalTrade>): Option<TradeAnalysis> {
    var closed := ClosedTrades(trades);
    if closed == [] then None
    else
      var pnls := Pnls(closed);
      var wins := Positives(pnls);
      var losses := Negatives(pnls);
      Some(TradeAnalysis(
        |closed|, |wins|, |losses|, |Zeros(pnls)|,
        Sum(pnls), MeanOf(pnls), |wins| as real / |closed| as real * 100.0,
        MaxOf(pnls), MinOf(pnls), MeanOf(wins), MeanOf(losses),
        LongestRun(Qualifying(ByEntryTime(closed), "win")),
        LongestRun(Qualifying(ByEntryTime(closed), "loss")),
        MeanOf(Confidences(closed)), MaxDrawdown(trades), ProfitFactorOf(pnls)))
  }

  /** Every closed trade is a win, a loss or break-even; the win rate is a
      percentage; the profit factor is infinite exactly when nothing lost. */
  lemma TradeAnalysisCounts(trades: seq<JournalTrade>)
    ensures TradeAnalysisOf(trades).None? <==> ClosedTrades(trades) == []
    ensures TradeAnalysisOf(trades).Some? ==>
      var a := TradeAnalysisOf(trades).value;
      && a.totalTrades == |ClosedTrades(trades)|
      && a.winningTrades + a.losingTrades + a.breakevenTrades == a.totalTrades
      && 0.0 <= a.winRate <= 100.0
      && (a.profitFactor == Infinite <==> a.losingTrades == 0)
  {
    var closed := ClosedTrades(trades);
    if closed != [] {
      var pnls := Pnls(closed);
      SignsPartition(pnls);
      RatioInUnit(|Positives(pnls)|, |closed|);
      ProfitFactorInfinite(pnls);
    }
  }

  /** The average lies between the worst and the best trade, the average
      winner is a gain and the average loser a loss. */
  lemma TradeAnalysisAverages(trades: seq<JournalTrade>)
    ensures TradeAnalysisOf(trades).Some? ==>
      var a := TradeAnalysisOf(trades).value;
      && a.worstTrade <= a.averagePnl <= a.bestTrade
      && a.averageLoser <= 0.0 <= a.averageWinner
  {
    var closed := ClosedTrades(trades);
    if closed != [] {
      var pnls := Pnls(closed);
      var a := TradeAnalysisOf(trades).value;
      assert a.worstTrade == MinOf(pnls) && a.bestTrade == MaxOf(pnls) && a.averagePnl == MeanOf(pnls);
      assert a.averageWinner == MeanOf(Positives(pnls)) && a.averageLoser == MeanOf(Negatives(pnls));
      MeanOfBounds(pnls);
      MeanOfSigns(pnls);
    }
  }

  lemma MeanOfBounds(xs: seq<real>)
    requires xs != []
    ensures MinOf(xs) <= MeanOf(xs) <= MaxOf(xs)
  {
    MeanBounds(xs);
  }

  lemma MeanOfSigns(xs: seq<real>)
    ensures MeanOf(Negatives(xs)) <= 0.0 <= MeanOf(Positives(xs))
  {
    var wins := Positives(xs);
    var losses := Negatives(xs);
    if wins != [] {
      SumOfGains(wins);
      RatioAtLeast(Sum(wins), |wins| as real, 0.0);
    }
    if losses != [] {
      SumOfLosses(losses);
      RatioAtMost(Sum(losses), |losses| as real, 0.0);
    }
  }

  /** The streaks fit in the closed trades and the drawdown is never positive. */
  lemma TradeAnalysisStreaks(trades: seq<JournalTrade>)
    ensures TradeAnalysisOf(trades).Some? ==>
      var a := TradeAnalysisOf(trades).value;
      && a.largestWinningStreak <= a.totalTrades
      && a.largestLosingStreak <= a.totalTrades
      && a.maxDrawdown <= 0.0
  {
    var closed := ClosedTrades(trades);
    if closed != [] {
      LargestStreakBounds(closed, "win");
      LargestStreakBounds(closed, "loss");
      MaxDrawdownProperties(trades);
    }
  }
}
