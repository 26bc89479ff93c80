/** The option-chain analytics, the mock expiry calendar and the symbol
    universe of `core/market.py`. */
module Market {
  import opened Common
  import opened Calendar
  import Helpers

  // ---------------------------------------------------------------- max pain

  /** The three option-chain columns the max-pain calculation reads. */
  datatype StrikeRow = StrikeRow(strike: real, optionType: string, oi: real)

  function StrikeColumn(chain: seq<StrikeRow>): (r: seq<real>)
    ensures |r| == |chain|
    ensures forall i :: 0 <= i < |chain| ==> r[i] == chain[i].strike
  {
    if chain == [] then [] else StrikeColumn(chain[..|chain| - 1]) + [chain[|chain| - 1].strike]
  }

  /** `Series.unique()`: each value once, in order of first appearance. */
  function Unique(xs: seq<real>): (r: seq<real>)
    ensures forall x :: x in r <==> x in xs
    ensures forall i, j :: 0 <= i < j < |r| ==> r[i] != r[j]
  {
    if xs == [] then []
    else
      var u := Unique(xs[..|xs| - 1]);
      assert xs == xs[..|xs| - 1] + [xs[|xs| - 1]];
      if xs[|xs| - 1] in u then u else u + [xs[|xs| - 1]]
  }

  /** What call writers pay if the underlying settles at `s`: every call struck
      below `s` is worth `s - strike` per unit of open interest. */
  function CallPain(chain: seq<StrikeRow>, s: real): real {
    if chain == [] then 0.0
    else
      var row := chain[|chain| - 1];
      CallPain(chain[..|chain| - 1], s)
        + (if row.optionType == "CE" && row.strike < s then (s - row.strike) * row.oi else 0.0)
  }

  /** What put writers pay at settlement `s`: every put struck above `s`. */
  function PutPain(chain: seq<StrikeRow>, s: real): real {
    if chain == [] then 0.0
    else
      var row := chain[|chain| - 1];
      PutPain(chain[..|chain| - 1], s)
        + (if row.optionType == "PE" && row.strike > s then (row.strike - s) * row.oi else 0.0)
  }

  function Pain(chain: seq<StrikeRow>, s: real): real {
    CallPain(chain, s) + PutPain(chain, s)
  }

  /** With no open interest anywhere, every settlement costs the writers
      nothing. */
  lemma {:induction false} PainWithoutInterest(chain: seq<StrikeRow>, s: real)
    requires forall i :: 0 <= i < |chain| ==> chain[i].oi == 0.0
    ensures Pain(chain, s) == 0.0
  {
    if chain != [] {
      PainWithoutInterest(chain[..|chain| - 1], s);
    }
  }

  /** With non-negative open interest the writers' payout is never negative. */
  lemma {:induction false} PainNonNegative(chain: seq<StrikeRow>, s: real)
    requires forall i :: 0 <= i < |chain| ==> chain[i].oi >= 0.0
    ensures CallPain(chain, s) >= 0.0 && PutPain(chain, s) >= 0.0
  {
    if chain != [] {
      PainNonNegative(chain[..|chain| - 1], s);
      var row := chain[|chain| - 1];
      if row.optionType == "CE" && row.strike < s {
        assert (s - row.strike) * row.oi >= 0.0;
      }
      if row.optionType == "PE" && row.strike > s {
        assert (row.strike - s) * row.oi >= 0.0;
      }
    }
  }

  /** The payout at one settlement strike: the call rows, then the put rows. */
  method StrikePain(chain: seq<StrikeRow>, strike: real) returns (pain: real)
    ensures pain == Pain(chain, strike)
  {
    pain := 0.0;
    for j := 0 to |chain|
      invariant pain == CallPain(chain[..j], strike)
    {
      assert chain[..j + 1][..j] == chain[..j];
      var opt := chain[j];
      if opt.optionType == "CE" && opt.strike < strike {
        pain := pain + (strike - opt.strike) * opt.oi;
      }
    }
    assert chain[..|chain|] == chain;
    for j := 0 to |chain|
      invariant pain == CallPain(chain, strike) + PutPain(chain[..j], strike)
    {
      assert chain[..j + 1][..j] == chain[..j];
      var opt := chain[j];
      if opt.optionType == "PE" && opt.strike > strike {
        pain := pain + (opt.strike - strike) * opt.oi;
      }
    }
  }

  /** `s` is a distinct strike of the chain and every distinct strike listed
      before it costs the writers strictly more. */
  ghost predicate EarliestLeastPain(chain: seq<StrikeRow>, s: real) {
    var strikes := Unique(StrikeColumn(chain));
    exists b :: 0 <= b < |strikes| && strikes[b] == s
      && forall k :: 0 <= k < b ==> Pain(chain, strikes[k]) > Pain(chain, s)
  }

  /** The strike `s` costs the writers no more than any strike of the chain. */
  ghost predicate LeastPain(chain: seq<StrikeRow>, s: real) {
    forall i :: 0 <= i < |chain| ==> Pain(chain, s) <= Pain(chain, chain[i].strike)
  }

  /** Least pain with the earliest tie-break names one strike: the answer of
      the max-pain calculation is determined by the chain. */
  lemma MaxPainDetermined(chain: seq<StrikeRow>, s1: real, s2: real)
    requires LeastPain(chain, s1) && EarliestLeastPain(chain, s1)
    requires LeastPain(chain, s2) && EarliestLeastPain(chain, s2)
    ensures s1 == s2
  {
    var strikes := Unique(StrikeColumn(chain));
    var b1 :| 0 <= b1 < |strikes| && strikes[b1] == s1
      && forall k :: 0 <= k < b1 ==> Pain(chain, strikes[k]) > Pain(chain, s1);
    var b2 :| 0 <= b2 < |strikes| && strikes[b2] == s2
      && forall k :: 0 <= k < b2 ==> Pain(chain, strikes[k]) > Pain(chain, s2);
    // both are least, so they cost the same; the one listed later would
    // then cost strictly more than itself
    EarlierStrikeInChain(chain, b1);
    EarlierStrikeInChain(chain, b2);
    var i1 :| 0 <= i1 < |chain| && chain[i1].strike == s1;
    var i2 :| 0 <= i2 < |chain| && chain[i2].strike == s2;
    assert Pain(chain, s1) <= Pain(chain, chain[i2].strike);
    assert Pain(chain, s2) <= Pain(chain, chain[i1].strike);
  }

  /** Each distinct strike comes from some row of the chain. */
  lemma EarlierStrikeInChain(chain: seq<StrikeRow>, b: int)
    requires 0 <= b < |Unique(StrikeColumn(chain))|
    ensures exists i :: 0 <= i < |chain| && chain[i].strike == Unique(StrikeColumn(chain))[b]
  {
    var strikes := Unique(StrikeColumn(chain));
    assert strikes[b] in StrikeColumn(chain);
    var i :| 0 <= i < |StrikeColumn(chain)| && StrikeColumn(chain)[i] == strikes[b];
    assert chain[i].strike == strikes[b];
  }

  /** `calculate_max_pain`: 0 for an empty chain; otherwise the distinct strike,
      in order of first appearance, at which option writers pay the least,
      the earliest one when several tie. */
  method MaxPain(chain: seq<StrikeRow>) returns (maxPain: real)
    ensures chain == [] ==> maxPain == 0.0
    ensures chain != [] ==> exists i :: 0 <= i < |chain| && chain[i].strike == maxPain
    ensures LeastPain(chain, maxPain)
    ensures chain != [] ==> EarliestLeastPain(chain, maxPain)
  {
    if chain == [] {
      return 0.0;
    }
    var strikes := Unique(StrikeColumn(chain));
    maxPain := 0.0;
    var minPainValue: Option<real> := None;  // float('inf')
    ghost var best := 0;
    for i := 0 to |strikes|
      invariant minPainValue.None? <==> i == 0
      invariant 0 <= best <= i && (i > 0 ==> best < i && strikes[best] == maxPain)
      invariant i > 0 ==> minPainValue == Some(Pain(chain, maxPain))
      invariant forall k :: 0 <= k < i ==> Pain(chain, strikes[k]) >= minPainValue.GetOr(0.0)
      invariant forall k :: 0 <= k < best ==> Pain(chain, strikes[k]) > minPainValue.GetOr(0.0)
    {
      var strike := strikes[i];
      var pain := StrikePain(chain, strike);
      if minPainValue.None? || pain < minPainValue.value {
        minPainValue := Some(pain);
        maxPain := strike;
        best := i;
      }
    }
    assert StrikeColumn(chain)[0] in strikes;
    forall i | 0 <= i < |chain| ensures Pain(chain, maxPain) <= Pain(chain, chain[i].strike) {
      assert StrikeColumn(chain)[i] == chain[i].strike;
      assert chain[i].strike in strikes;
    }
    assert 0 <= best < |strikes| && strikes[best] == maxPain;
    assert strikes[best] in strikes;
    assert EarliestLeastPain(chain, maxPain);
    assert minPainValue.GetOr(0.0) == Pain(chain, maxPain);
    assert forall k :: 0 <= k < best ==> Pain(chain, strikes[k]) > Pain(chain, maxPain);
    var k :| 0 <= k < |StrikeColumn(chain)| && StrikeColumn(chain)[k] == maxPain;
    assert chain[k].strike == maxPain;
  }

  // ----------------------------------------------------------- expiry dates

  /** Seven days on, the weekday is the same. */
  lemma {:induction false} WeekdayAfterWeeks(day: int, weeks: nat)
    ensures Weekday(day + 7 * weeks) == Weekday(day)
  {
    if weeks > 0 {
      WeekdayAfterWeeks(day, weeks - 1);
      assert day + 7 * weeks == (day + 7 * (weeks - 1)) + 7;
    }
  }

  /** `get_expiry_dates` in mock mode: the next four weekly expiries, the first
      Thursday strictly after `today` and the three after it, one week apart;
      without mock data there are none.  Days are counted from a fixed
      Monday, so `today` is the current date. */
  method ExpiryDates(mockMode: bool, today: int) returns (expiries: seq<int>)
    ensures !mockMode ==> expiries == []
    ensures mockMode ==> |expiries| == 4
    ensures mockMode ==> expiries[0] == Helpers.NextExpiry(today)
    ensures forall k :: 0 <= k < |expiries| ==> Weekday(expiries[k]) == Thursday
    ensures forall k :: 0 < k < |expiries| ==> expiries[k] == expiries[k - 1] + 7
    ensures |expiries| > 0 ==> today < expiries[0] <= today + 7
  {
    if !mockMode {
      return [];
    }
    expiries := [];
    for i := 0 to 4
      invariant |expiries| == i
      invariant forall k :: 0 <= k < i ==> expiries[k] == Helpers.NextExpiry(today) + 7 * k
    {
      var daysAhead := Thursday - Weekday(today);
      if daysAhead <= 0 {
        daysAhead := daysAhead + 7;
      }
      expiries := expiries + [today + daysAhead + i * 7];
    }
    forall k | 0 <= k < |expiries| ensures Weekday(expiries[k]) == Thursday {
      WeekdayAfterWeeks(Helpers.NextExpiry(today), k);
    }
  }

  // ------------------------------------------------------------- symbols

  /** Python's `<` on strings: code point by code point, a proper prefix first. */
  predicate StrLess(a: string, b: string) {
    if b == [] then false
    else if a == [] then true
    else if a[0] != b[0] then a[0] < b[0]
    else StrLess(a[1..], b[1..])
  }

  lemma {:induction false} StrLessIrreflexive(a: string)
    ensures !StrLess(a, a)
  {
    if a != [] {
      StrLessIrreflexive(a[1..]);
    }
  }

  lemma {:induction false} StrLessTransitive(a: string, b: string, c: string)
    requires StrLess(a, b) && StrLess(b, c)
    ensures StrLess(a, c)
  {
    if a != [] && a[0] == b[0] && b[0] == c[0] {
      StrLessTransitive(a[1..], b[1..], c[1..]);
    }
  }

  lemma {:induction false} StrLessTotal(a: string, b: string)
    requires a != b
    ensures StrLess(a, b) || StrLess(b, a)
  {
    if a != [] && b != [] && a[0] == b[0] {
      assert a == [a[0]] + a[1..] && b == [b[0]] + b[1..];
      StrLessTotal(a[1..], b[1..]);
    }
  }

  ghost predicate StrictlyIncreasing(s: seq<string>) {
    forall i, j :: 0 <= i < j < |s| ==> StrLess(s[i], s[j])
  }

  /** Adds `x` to a strictly increasing list unless it is already there. */
  function InsertUnique(x: string, s: seq<string>): (r: seq<string>)
    ensures forall y :: y in r <==> y == x || y in s
  {
    if s == [] then [x]
    else if x == s[0] then s
    else if StrLess(x, s[0]) then [x] + s
    else [s[0]] + InsertUnique(x, s[1..])
  }

  /** `sorted(set(xs))`. */
  function SortedSet(xs: seq<string>): (r: seq<string>)
    ensures forall y :: y in r <==> y in xs
  {
    if xs == [] then [] else InsertUnique(xs[0], SortedSet(xs[1..]))
  }

  lemma {:induction false} InsertUniqueIncreasing(x: string, s: seq<string>)
    requires StrictlyIncreasing(s)
    ensures StrictlyIncreasing(InsertUnique(x, s))
  {
    if s == [] || x == s[0] {
    } else if StrLess(x, s[0]) {
      var r := [x] + s;
      forall i, j | 0 <= i < j < |r| ensures StrLess(r[i], r[j]) {
        if i == 0 && j > 1 {
          StrLessTransitive(x, s[0], s[j - 1]);
        }
      }
    } else {
      StrLessTotal(x, s[0]);
      var t := InsertUnique(x, s[1..]);
      assert StrictlyIncreasing(s[1..]) by {
        forall i, j | 0 <= i < j < |s[1..]| ensures StrLess(s[1..][i], s[1..][j]) {
          assert s[1..][i] == s[i + 1] && s[1..][j] == s[j + 1];
        }
      }
      InsertUniqueIncreasing(x, s[1..]);
      var r := [s[0]] + t;
      forall i, j | 0 <= i < j < |r| ensures StrLess(r[i], r[j]) {
        if i == 0 {
          assert r[j] == t[j - 1];
          assert r[j] in t;
          if r[j] != x {
            var k :| 0 <= k < |s[1..]| && s[1..][k] == r[j];
            assert s[k + 1] == r[j];
          }
        } else {
          assert r[i] == t[i - 1] && r[j] == t[j - 1];
        }
      }
    }
  }

  /** The de-duplicated list is in strictly increasing order, so each symbol
      appears once. */
  lemma {:induction false} SortedSetIncreasing(xs: seq<string>)
    ensures StrictlyIncreasing(SortedSet(xs))
  {
    if xs != [] {
      SortedSetIncreasing(xs[1..]);
      InsertUniqueIncreasing(xs[0], SortedSet(xs[1..]));
    }
  }

  lemma IncreasingIsDistinct(s: seq<string>)
    requires StrictlyIncreasing(s)
    ensures forall i, j :: 0 <= i < j < |s| ==> s[i] != s[j]
  {
    forall i, j | 0 <= i < j < |s| ensures s[i] != s[j] {
      StrLessIrreflexive(s[i]);
    }
  }

  const Indices: seq<string> := [
    "NIFTY", "BANKNIFTY", "FINNIFTY", "MIDCPNIFTY", "SENSEX", "BANKEX", "NIFTYIT",
    "NIFTYPHARMA", "NIFTYAUTO", "NIFTYMETAL"
  ]

  /** The stock universe as listed, with its repetitions. */
  const StockList: seq<string> := [
    "RELIANCE", "TCS", "HDFCBANK", "INFY", "ICICIBANK", "HINDUNILVR", "ITC", "SBIN",
    "BHARTIARTL", "KOTAKBANK", "LT", "AXISBANK", "ASIANPAINT", "MARUTI", "SUNPHARMA", "TITAN",
    "ULTRACEMCO", "BAJFINANCE", "NESTLEIND", "WIPRO", "HCLTECH", "TATAMOTORS", "ONGC", "NTPC",
    "POWERGRID", "M&M", "ADANIENT", "JSWSTEEL", "TATASTEEL", "INDUSINDBK", "BAJAJFINSV",
    "COALINDIA", "DRREDDY", "GRASIM", "HINDALCO", "TECHM", "CIPLA", "APOLLOHOSP", "EICHERMOT",
    "BRITANNIA", "DIVISLAB", "ADANIPORTS", "TATACONSUM", "BPCL", "UPL", "HEROMOTOCO",
    "SBILIFE", "BAJAJ-AUTO", "HDFCLIFE", "LTIM", "ACC", "ADANIGREEN", "ADANITRANS",
    "AMBUJACEM", "BANDHANBNK", "BERGEPAINT", "BIOCON", "BOSCHLTD", "COLPAL", "DABUR", "DLF",
    "GAIL", "GODREJCP", "HAVELLS", "HINDPETRO", "ICICIPRULI", "INDIGO", "JINDALSTEL",
    "MCDOWELL-N", "NAUKRI", "NMDC", "PAGEIND", "PETRONET", "PGHH", "PIDILITIND", "PNB",
    "SIEMENS", "TATAPOWER", "TORNTPHARM", "TRENT", "VEDL", "VOLTAS", "ZOMATO", "ABB", "ALKEM",
    "AUROPHARMA", "BAJAJHLDNG", "BEL", "PAYTM", "POLICYBZR", "DMART", "IRCTC", "SRF",
    "MOTHERSON", "CROMPTON", "DIXON", "MAXHEALTH", "LICI", "JUBLFOOD", "PVR", "CANBK",
    "FEDERALBNK", "IDFCFIRSTB", "AUBANK", "RBLBANK", "YESBANK", "M&MFIN", "SHRIRAMFIN",
    "CHOLAFIN", "PFC", "RECLTD", "IRFC", "SUZLON", "ADANIPOWER", "TATAPOWER", "NHPC", "SJVN",
    "SAIL", "NMDC", "MOIL", "PERSISTENT", "COFORGE", "MPHASIS", "LTTS", "TECHM", "MINDTREE",
    "CYIENT", "KPITTECH", "LUPIN", "BIOCON", "GRANULES", "LALPATHLAB", "METROPOLIS",
    "THYROCARE", "TVSMOTOR", "BAJAJ-AUTO", "HEROMOTOCO", "ASHOKLEY", "ESCORTS", "EXIDEIND",
    "MRF", "APOLLOTYRE", "CEAT", "BALKRISIND", "MOTHERSON", "BOSCHLTD", "ENDURANCE",
    "BANKBARODA", "UNIONBANK", "IOB", "INDIANB", "CENTRALBK", "MAHABANK", "IIFL", "ICICIGI",
    "SBICARD", "HDFCAMC", "MUTHOOTFIN", "MANAPPURAM", "LICHSGFIN", "MARICO", "GODREJCP", "VBL",
    "VARUN", "TATACONSUM", "PGHH", "COLPAL", "RADICO", "HINDZINC", "NATIONALUM", "VEDL",
    "COALINDIA", "NMDC", "SAIL", "JINDALSTEL", "JSWSTEEL", "ULTRACEMCO", "AMBUJACEM", "ACC",
    "SHREECEM", "RAMCOCEM", "JKCEMENT", "HEIDELBERG", "BHARTIARTL", "IDEA", "ZEEL", "SUNTV",
    "DISHTV", "NETWORK18", "TRENT", "SHOPERSTOP", "VMART", "NYKAA", "POLICYBZR", "DLF",
    "GODREJPROP", "OBEROIRLTY", "BRIGADE", "PRESTIGE", "PHOENIXLTD", "LT", "LARTOUROB", "NCC",
    "NBCC", "IRBINVIT", "IRB", "GMRINFRA"
  ]

  /** `get_available_symbols`: the indices, the de-duplicated sorted stocks, or
      (for any other type) the indices followed by the stocks. */
  function AvailableSymbols(symbolType: string): seq<string> {
    var stocks := SortedSet(StockList);
    if symbolType == "indices" then Indices
    else if symbolType == "stocks" then stocks
    else Indices + stocks
  }

  /** The stock list holds each listed stock exactly once, in sorted order, and
      the default list is the indices and then the stocks. */
  lemma AvailableSymbolsProperties(symbolType: string)
    ensures symbolType == "indices" ==> AvailableSymbols(symbolType) == Indices
    ensures var stocks := AvailableSymbols("stocks");
      && StrictlyIncreasing(stocks)
      && (forall i, j :: 0 <= i < j < |stocks| ==> stocks[i] != stocks[j])
      && (forall y :: y in stocks <==> y in StockList)
    ensures symbolType != "indices" && symbolType != "stocks"
        ==> AvailableSymbols(symbolType) == Indices + AvailableSymbols("stocks")
  {
    SortedSetIncreasing(StockList);
    IncreasingIsDistinct(SortedSet(StockList));
  }
}
