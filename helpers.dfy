/** Option, date and text helpers of `utils/helpers.py`. */
module Helpers {
  import opened Common
  import opened Text
  import opened Calendar

  /** `option_type.upper() in ['CE', 'CALL']`: every other type is treated as a put. */
  predicate IsCall(optionType: string) {
    Upper(optionType) == "CE" || Upper(optionType) == "CALL"
  }

  datatype Moneyness = ITM | ATM | OTM

  /** `get_option_moneyness`: in the money first, then within 50 points is at the money. */
  function OptionMoneyness(underlying: real, strike: real, optionType: string): (r: Moneyness)
    ensures IsCall(optionType) ==> (r == ITM <==> underlying > strike)
    ensures !IsCall(optionType) ==> (r == ITM <==> underlying < strike)
    ensures r != ITM ==> (r == ATM <==> Abs(underlying - strike) < 50.0)
  {
    if IsCall(optionType) then
      if underlying > strike then ITM
      else if Abs(underlying - strike) < 50.0 then ATM
      else OTM
    else
      if underlying < strike then ITM
      else if Abs(underlying - strike) < 50.0 then ATM
      else OTM
  }

  /** `calculate_breakeven`. */
  function Breakeven(strike: real, premium: real, optionType: string): real {
    if IsCall(optionType) then strike + premium else strike - premium
  }

  /** `calculate_option_value_at_expiry`: the intrinsic value, the smallest
      non-negative amount that covers the exercise payoff. */
  function ValueAtExpiry(underlying: real, strike: real, optionType: string): (r: real)
    ensures r >= 0.0
    ensures IsCall(optionType) ==> r >= underlying - strike && (r == 0.0 || r == underlying - strike)
    ensures !IsCall(optionType) ==> r >= strike - underlying && (r == 0.0 || r == strike - underlying)
  {
    if IsCall(optionType) then Max(0.0, underlying - strike) else Max(0.0, strike - underlying)
  }

  /** An option is in the money exactly when it would be worth something at expiry. */
  lemma InTheMoneyIffValuable(underlying: real, strike: real, optionType: string)
    ensures OptionMoneyness(underlying, strike, optionType) == ITM
        <==> ValueAtExpiry(underlying, strike, optionType) > 0.0
  {
  }

  /** At the breakeven price the intrinsic value repays exactly the premium paid. */
  lemma BreakevenRepaysPremium(strike: real, premium: real, optionType: string)
    requires premium >= 0.0
    ensures ValueAtExpiry(Breakeven(strike, premium, optionType), strike, optionType) == premium
  {
  }

  /** Put-call parity at expiry. */
  lemma ParityAtExpiry(underlying: real, strike: real)
    ensures ValueAtExpiry(underlying, strike, "CE") - ValueAtExpiry(underlying, strike, "PE")
         == underlying - strike
  {
    assert Upper("CE") == "CE";
    assert Upper("PE") == "PE";
  }

  /** `validate_strike_price`: positive, and within 50%..150% of the underlying. */
  function ValidStrikePrice(strike: real, underlying: real): (ok: bool)
    ensures ok <==> strike > 0.0 && underlying > 0.0
                    && 0.5 * underlying <= strike <= 1.5 * underlying
  {
    if strike <= 0.0 || underlying <= 0.0 then false
    else
      var ratio := strike / underlying;
      0.5 <= ratio <= 1.5
  }

  datatype Session = PreMarket | Regular | AfterMarket | Closed

  /** `get_trading_session` on the clock reading `now`, with t = hour * 100 + minute. */
  function TradingSession(now: DateTime): (r: Session)
    ensures var t := now.hour * 100 + now.minute;
      && (r == PreMarket <==> 900 <= t < 915)
      && (r == Regular <==> 915 <= t <= 1530)
      && (r == AfterMarket <==> 1530 < t <= 1600)
  {
    var t := now.hour * 100 + now.minute;
    if 900 <= t < 915 then PreMarket
    else if 915 <= t <= 1530 then Regular
    else if 1530 < t <= 1600 then AfterMarket
    else Closed
  }

  /** `get_next_expiry_date`: the first Thursday strictly after `today`. */
  function NextExpiry(today: int): (r: int)
    ensures Weekday(r) == Thursday
    ensures today < r <= today + 7
    ensures forall d :: today < d < r ==> Weekday(d) != Thursday
  {
    var daysAhead := Thursday - Weekday(today);
    var daysAhead := if daysAhead <= 0 then daysAhead + 7 else daysAhead;
    today + daysAhead
  }

  /** The distance back to the latest Thursday on or before `day`. */
  function DaysSinceThursday(day: int): int {
    (Weekday(day) - Thursday) % 7
  }

  /** A day that is not a Thursday is one further from the last Thursday than
      the day before it. */
  lemma DaysSinceThursdayStep(day: int)
    ensures 0 <= DaysSinceThursday(day) < 7
    ensures Weekday(day) != Thursday ==> DaysSinceThursday(day) >= 1
    ensures Weekday(day) != Thursday ==> DaysSinceThursday(day - 1) == DaysSinceThursday(day) - 1
  {
    var w, w1 := Weekday(day), Weekday(day - 1);
    assert w1 == (if w == 0 then 6 else w - 1);
  }

  /** `get_monthly_expiry_date`: step back from the month's last day until a
      Thursday.  The result is the last Thursday of the month. */
  method MonthlyExpiry(year: int, month: int) returns (r: Date)
    requires 1 <= year <= 9999 && 1 <= month <= 12
    requires !(year == 9999 && month == 12)
    ensures ValidDate(r) && r.year == year && r.month == month
    ensures Weekday(Ordinal(r)) == Thursday
    ensures forall d :: r.day < d <= DaysInMonth(year, month)
              ==> Weekday(Ordinal(Date(year, month, d))) != Thursday
  {
    var last := DaysInMonth(year, month);
    var base := DaysBeforeYear(year) + DaysBeforeMonth(year, month);
    var day := last;
    while Weekday(Ordinal(Date(year, month, day))) != Thursday
      invariant 1 <= day <= last
      invariant last - day == DaysSinceThursday(base + last) - DaysSinceThursday(base + day)
      invariant forall d :: day < d <= last ==> Weekday(Ordinal(Date(year, month, d))) != Thursday
      decreases day
    {
      assert Ordinal(Date(year, month, day)) == base + day;
      DaysSinceThursdayStep(base + day);
      DaysSinceThursdayStep(base + last);
      day := day - 1;
    }
    r := Date(year, month, day);
  }

  /** Python's `s[:k]` for an int `k`; a negative `k` counts from the end. */
  function SliceTo(s: string, k: int): (r: string)
    ensures 0 <= k <= |s| ==> r == s[..k]
  {
    if k >= 0 then (if k <= |s| then s[..k] else s)
    else if |s| + k >= 0 then s[..|s| + k] else []
  }

  /** `s.lstrip()`: drops the leading whitespace. */
  function StripLeading(s: string): (r: string)
    ensures |r| <= |s| && r == s[|s| - |r|..]
    ensures r == [] || !IsSpace(r[0])
    ensures forall i :: 0 <= i < |s| - |r| ==> IsSpace(s[i])
  {
    if s != [] && IsSpace(s[0]) then StripLeading(s[1..]) else s
  }

  /** `s.rstrip()`: drops the trailing whitespace. */
  function StripTrailing(s: string): (r: string)
    ensures |r| <= |s| && r == s[..|r|]
    ensures r == [] || !IsSpace(r[|r| - 1])
    ensures forall i :: |r| <= i < |s| ==> IsSpace(s[i])
  {
    if s != [] && IsSpace(s[|s| - 1]) then StripTrailing(s[..|s| - 1]) else s
  }

  /** `s.strip()`. */
  function Strip(s: string): string {
    StripTrailing(StripLeading(s))
  }

  /** `re.sub(r'\s+', ' ', s)`: every maximal run of whitespace becomes one space. */
  function Collapse(s: string): string
    decreases |s|
  {
    if s == [] then []
    else if IsSpace(s[0]) then [' '] + Collapse(StripLeading(s))
    else [s[0]] + Collapse(s[1..])
  }

  /** Whitespace only as single spaces between other characters. */
  predicate Tidy(s: string) {
    && (forall i :: 0 <= i < |s| && IsSpace(s[i]) ==> s[i] == ' ')
    && (forall i :: 0 <= i < |s| - 1 ==> !IsSpace(s[i]) || !IsSpace(s[i + 1]))
  }

  /** Tidy, and no whitespace at either end. */
  predicate Normalized(s: string) {
    Tidy(s) && (s == [] || (!IsSpace(s[0]) && !IsSpace(s[|s| - 1])))
  }

  /** `clean_text`: empty text stays empty; otherwise strip, collapse whitespace
      and, when longer than `maxLength`, keep `maxLength - 3` characters and
      append "...". */
  function CleanText(text: string, maxLength: int): string {
    if text == [] then []
    else
      var cleaned := Collapse(Strip(text));
      if |cleaned| > maxLength then SliceTo(cleaned, maxLength - 3) + "..." else cleaned
  }

  /** Prepending one character keeps a string tidy when it does not start a
      second whitespace character in a row. */
  lemma TidyCons(x: char, c: string)
    requires Tidy(c)
    requires IsSpace(x) ==> x == ' ' && (c == [] || !IsSpace(c[0]))
    ensures Tidy([x] + c)
  {
    var r := [x] + c;
    forall i | 0 <= i < |r| - 1 ensures !IsSpace(r[i]) || !IsSpace(r[i + 1]) {
      if i > 0 {
        assert r[i] == c[i - 1] && r[i + 1] == c[i];
      }
    }
  }

  lemma {:induction false} CollapseTidyResult(s: string)
    ensures Tidy(Collapse(s))
    ensures (Collapse(s) == []) == (s == [])
    ensures s != [] && !IsSpace(s[0]) ==> Collapse(s)[0] == s[0]
    decreases |s|
  {
    if s == [] {
    } else if IsSpace(s[0]) {
      var t := StripLeading(s);
      CollapseTidyResult(t);
      TidyCons(' ', Collapse(t));
    } else {
      CollapseTidyResult(s[1..]);
      TidyCons(s[0], Collapse(s[1..]));
    }
  }

  lemma {:induction false} CollapseLast(s: string)
    requires s != [] && !IsSpace(s[|s| - 1])
    ensures Collapse(s) != [] && !IsSpace(Collapse(s)[|Collapse(s)| - 1])
    decreases |s|
  {
    if IsSpace(s[0]) {
      var t := StripLeading(s);
      assert t != [] && t[|t| - 1] == s[|s| - 1];
      CollapseLast(t);
    } else if |s| > 1 {
      CollapseLast(s[1..]);
    }
  }

  lemma {:induction false} CollapseNonSpace(s: string)
    ensures NonSpace(Collapse(s)) == NonSpace(s)
    decreases |s|
  {
    if s == [] {
    } else if IsSpace(s[0]) {
      var t := StripLeading(s);
      CollapseNonSpace(t);
      StripLeadingNonSpace(s);
      assert ([' '] + Collapse(t))[1..] == Collapse(t);
    } else {
      CollapseNonSpace(s[1..]);
      assert ([s[0]] + Collapse(s[1..]))[1..] == Collapse(s[1..]);
    }
  }

  lemma {:induction false} StripLeadingNonSpace(s: string)
    ensures NonSpace(StripLeading(s)) == NonSpace(s)
    decreases |s|
  {
    if s != [] && IsSpace(s[0]) {
      StripLeadingNonSpace(s[1..]);
    }
  }

  lemma {:induction false} StripTrailingNonSpace(s: string)
    ensures NonSpace(StripTrailing(s)) == NonSpace(s)
    decreases |s|
  {
    if s != [] && IsSpace(s[|s| - 1]) {
      var p := s[..|s| - 1];
      StripTrailingNonSpace(p);
      assert s == p + [s[|s| - 1]];
      NonSpaceAppend(p, [s[|s| - 1]]);
      assert NonSpace([s[|s| - 1]]) == [];
    }
  }

  lemma TidyTail(s: string)
    requires Tidy(s) && s != []
    ensures Tidy(s[1..])
    ensures IsSpace(s[0]) ==> s[0] == ' ' && (|s| > 1 ==> !IsSpace(s[1]))
  {
    var t := s[1..];
    forall i | 0 <= i < |t| ensures IsSpace(t[i]) ==> t[i] == ' ' {
      assert t[i] == s[i + 1];
    }
    forall i | 0 <= i < |t| - 1 ensures !IsSpace(t[i]) || !IsSpace(t[i + 1]) {
      assert t[i] == s[i + 1] && t[i + 1] == s[i + 2];
    }
  }

  /** Collapsing leaves a tidy string unchanged. */
  lemma {:induction false} CollapseTidy(s: string)
    requires Tidy(s)
    ensures Collapse(s) == s
    decreases |s|
  {
    if s != [] {
      var t := s[1..];
      TidyTail(s);
      CollapseTidy(t);
      if IsSpace(s[0]) {
        assert StripLeading(t) == t;
        assert StripLeading(s) == t;
        assert s == [' '] + t;
      } else {
        assert s == [s[0]] + t;
      }
    }
  }

  /** The output of `clean_text` has no whitespace at its ends and none repeated,
      for any `maxLength` of at least 3. */
  lemma CleanTextNormalized(text: string, maxLength: int)
    requires maxLength >= 3
    ensures Normalized(CleanText(text, maxLength))
    ensures |CleanText(text, maxLength)| <= maxLength
  {
    if text != [] {
      var st := Strip(text);
      StripNormalEnds(text);
      CollapseNormalized(st);
      var cleaned := Collapse(st);
      if |cleaned| > maxLength {
        TruncatedNormalized(cleaned, maxLength - 3);
      }
    }
  }

  /** `strip()` leaves no whitespace at either end. */
  lemma StripNormalEnds(text: string)
    ensures var st := Strip(text); st == [] || (!IsSpace(st[0]) && !IsSpace(st[|st| - 1]))
  {
    var l := StripLeading(text);
    var st := StripTrailing(l);
    if st != [] {
      assert st == l[..|st|];
      assert st[0] == l[0];
    }
  }

  /** Collapsing a string with no whitespace at its ends normalizes it. */
  lemma CollapseNormalized(st: string)
    requires st == [] || (!IsSpace(st[0]) && !IsSpace(st[|st| - 1]))
    ensures Normalized(Collapse(st))
  {
    CollapseTidyResult(st);
    if st != [] {
      CollapseLast(st);
    }
  }

  /** Cutting a normalized string short and appending "..." keeps it normalized. */
  lemma TruncatedNormalized(c: string, k: nat)
    requires Normalized(c) && k <= |c|
    ensures Normalized(c[..k] + "...")
  {
    var p := c[..k];
    var r := p + "...";
    assert forall i :: 0 <= i < |r| && IsSpace(r[i]) ==> i < |p| && r[i] == c[i];
    forall i | 0 <= i < |r| - 1
      ensures !IsSpace(r[i]) || !IsSpace(r[i + 1])
    {
      if i + 1 < |p| {
        assert r[i] == c[i] && r[i + 1] == c[i + 1];
      }
    }
    assert p != [] ==> r[0] == c[0];
  }

  /** When nothing is cut off, `clean_text` only changes whitespace. */
  lemma CleanTextKeepsContent(text: string, maxLength: int)
    requires |Collapse(Strip(text))| <= maxLength
    ensures NonSpace(CleanText(text, maxLength)) == NonSpace(text)
  {
    if text != [] {
      CollapseNonSpace(Strip(text));
      StripTrailingNonSpace(StripLeading(text));
      StripLeadingNonSpace(text);
    }
  }

  /** When the collapsed text is too long, the result has exactly `maxLength`
      characters and ends in "...". */
  lemma CleanTextTruncates(text: string, maxLength: int)
    requires maxLength >= 3 && |Collapse(Strip(text))| > maxLength
    ensures var r := CleanText(text, maxLength);
      |r| == maxLength && r[maxLength - 3..] == "..."
      && r[..maxLength - 3] == Collapse(Strip(text))[..maxLength - 3]
  {
    assert text != [];
  }

  /** Cleaning twice is cleaning once. */
  lemma CleanTextIdempotent(text: string, maxLength: int)
    requires maxLength >= 3
    ensures CleanText(CleanText(text, maxLength), maxLength) == CleanText(text, maxLength)
  {
    var r := CleanText(text, maxLength);
    CleanTextNormalized(text, maxLength);
    if r != [] {
      assert StripLeading(r) == r;
      assert StripTrailing(r) == r;
      CollapseTidy(r);
    }
  }

  /** `safe_divide`. */
  function SafeDivide(numerator: real, denominator: real, default: real): (r: real)
    ensures denominator == 0.0 ==> r == default
    ensures denominator != 0.0 ==> r * denominator == numerator
  {
    if denominator == 0.0 then default else numerator / denominator
  }

  /** `calculate_risk_reward_ratio`: reward over risk, 0 when undefined. */
  function RiskRewardRatio(entry: real, stopLoss: real, target: real): (r: real)
    ensures r >= 0.0
    ensures entry == 0.0 || stopLoss == entry ==> r == 0.0
    ensures entry != 0.0 && stopLoss != entry ==> r * Abs(entry - stopLoss) == Abs(target - entry)
  {
    if entry == 0.0 || stopLoss == entry then 0.0
    else
      var risk := Abs(entry - stopLoss);
      var reward := Abs(target - entry);
      SafeDivide(reward, risk, 0.0)
  }

  datatype Strength = VeryStrong | Strong | Moderate | Weak | VeryWeak

  function StrengthRank(s: Strength): int {
    match s
    case VeryWeak => 0
    case Weak => 1
    case Moderate => 2
    case Strong => 3
    case VeryStrong => 4
  }

  /** `get_signal_strength` on a confidence percentage. */
  function SignalStrength(confidence: real): (s: Strength)
    ensures s == VeryStrong <==> confidence >= 85.0
    ensures s == VeryWeak <==> confidence < 55.0
  {
    if confidence >= 85.0 then VeryStrong
    else if confidence >= 75.0 then Strong
    else if confidence >= 65.0 then Moderate
    else if confidence >= 55.0 then Weak
    else VeryWeak
  }

  /** A higher confidence never reads as a weaker signal. */
  lemma SignalStrengthMonotone(c1: real, c2: real)
    requires c1 <= c2
    ensures StrengthRank(SignalStrength(c1)) <= StrengthRank(SignalStrength(c2))
  {
  }

  /** `get_lot_size`: the table entry for the upper-cased symbol, else 75. */
  function LotSize(symbol: string): (n: int)
    ensures n > 0
    ensures Upper(symbol) == "BANKNIFTY" ==> n == 15
  {
    var table := map["NIFTY" := 75, "BANKNIFTY" := 15, "FINNIFTY" := 40, "SENSEX" := 10,
                     "RELIANCE" := 250, "TCS" := 150, "HDFCBANK" := 550, "INFY" := 300,
                     "HINDUNILVR" := 300];
    var key := Upper(symbol);
    if key in table then table[key] else 75
  }

  lemma {:induction false} UpperIdempotent(s: string)
    ensures Upper(Upper(s)) == Upper(s)
  {
    forall i | 0 <= i < |s| ensures Upper(Upper(s))[i] == Upper(s)[i] {
    }
  }

  /** The lot-size lookup ignores letter case. */
  lemma LotSizeIgnoresCase(symbol: string)
    ensures LotSize(Upper(symbol)) == LotSize(symbol)
  {
    UpperIdempotent(symbol);
  }

  /** The fields `validate_option_data` looks at; a missing or `None` field is `None`. */
  datatype OptionFields = OptionFields(strike: Option<real>, ltp: Option<real>, optionType: Option<string>)

  /** `validate_option_data`. */
  function ValidOptionData(d: OptionFields): (ok: bool)
    ensures ok <==> d.strike.Some? && d.ltp.Some? && d.optionType.Some?
                    && d.ltp.value >= 0.0 && d.strike.value > 0.0
  {
    if d.strike.None? || d.ltp.None? || d.optionType.None? then false
    else !(d.ltp.value < 0.0 || d.strike.value <= 0.0)
  }
}
