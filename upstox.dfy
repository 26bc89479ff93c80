/** The pure parts of the Upstox broker client (`core/brokers/upstox.py`):
    the instrument key, the candle-interval mapping and the authorisation
    URL.  The HTTP requests themselves are not modelled. */
module Upstox {
  import opened Common
  import opened Text

  const BaseUrl: string := "https://api.upstox.com/v2"
  const DefaultRedirectUri: string := "http://127.0.0.1:8000"

  /** The NSE symbols that are indices rather than stocks. */
  const NseIndices: seq<string> := ["NIFTY", "BANKNIFTY", "FINNIFTY", "MIDCPNIFTY"]

  // -------------------------------------------------------- instrument key

  /** The `{EXCHANGE}_{SEGMENT}` part of the key, for an upper-cased symbol
      and exchange.  An NFO symbol mentioning FUT and one mentioning nothing
      both end up as futures. */
  function Segment(symbol: string, exchange: string): string {
    if exchange == "NSE" then
      if symbol in NseIndices then "NSE_INDEX" else "NSE_EQ"
    else if exchange == "NFO" then
      if Contains(symbol, "CE") || Contains(symbol, "PE") then "NFO_OPT"
      else if Contains(symbol, "FUT") then "NFO_FUT"
      else "NFO_FUT"
    else if exchange == "BSE" then "BSE_EQ"
    else exchange + "_EQ"
  }

  /** `_get_instrument_key`: segment, a bar, and the upper-cased symbol. */
  function InstrumentKey(symbol: string, exchange: string): string {
    Segment(Upper(symbol), Upper(exchange)) + "|" + Upper(symbol)
  }

  /** The text after the first bar of a key (all of it when there is none). */
  function AfterBar(key: string): string {
    if key == [] then [] else if key[0] == '|' then key[1..] else AfterBar(key[1..])
  }

  lemma {:induction false} AfterBarOfPrefix(prefix: string, rest: string)
    requires '|' !in prefix
    ensures AfterBar(prefix + "|" + rest) == rest
  {
    if prefix == [] {
      assert prefix + "|" + rest == "|" + rest;
    } else {
      assert (prefix + "|" + rest)[1..] == prefix[1..] + "|" + rest;
      AfterBarOfPrefix(prefix[1..], rest);
    }
  }

  lemma {:induction false} UpperKeepsBar(s: string)
    requires '|' !in s
    ensures '|' !in Upper(s)
  {
    if s != [] {
      UpperKeepsBar(s[1..]);
      assert Upper(s) == [UpperChar(s[0])] + Upper(s[1..]);
    }
  }

  /** Every key is non-empty (so the "could not resolve" branch of the
      candle request never runs), and for an exchange name without a bar the
      symbol part of the key reads back as the upper-cased symbol. */
  lemma InstrumentKeyRoundTrip(symbol: string, exchange: string)
    requires '|' !in exchange
    ensures |InstrumentKey(symbol, exchange)| > 0
    ensures AfterBar(InstrumentKey(symbol, exchange)) == Upper(symbol)
  {
    UpperKeepsBar(exchange);
    var seg := Segment(Upper(symbol), Upper(exchange));
    assert '|' !in seg;
    AfterBarOfPrefix(seg, Upper(symbol));
  }

  /** The segment chosen for each exchange, stated case by case. */
  lemma SegmentCases(symbol: string, exchange: string)
    ensures var s, e := Upper(symbol), Upper(exchange);
      var seg := Segment(s, e);
      && (e == "NSE" ==> (seg == "NSE_INDEX" <==> s in NseIndices) && (seg == "NSE_INDEX" || seg == "NSE_EQ"))
      && (e == "NFO" ==> (seg == "NFO_OPT" <==> Contains(s, "CE") || Contains(s, "PE"))
                         && (seg == "NFO_OPT" || seg == "NFO_FUT"))
      && (e == "BSE" ==> seg == "BSE_EQ")
      && (e != "NSE" && e != "NFO" && e != "BSE" ==> seg == e + "_EQ")
  {
  }

  /** Because "RELIANCE" contains "CE", the equity name on NFO is keyed as an
      option, not a future. */
  lemma RelianceIsKeyedAsOption()
    ensures InstrumentKey("reliance", "nfo") == "NFO_OPT|RELIANCE"
  {
    assert Upper("reliance") == "RELIANCE";
    assert Upper("nfo") == "NFO";
    ContainsAt("RELIANCE", "CE", 6);
  }

  // ------------------------------------------------------------- intervals

  /** The interval mapping of `get_historical_data`: None for '1h', which is
      refused before any request; the five known codes translated; anything
      else falls back to a daily interval. */
  function UpstoxInterval(interval: string): (r: Option<string>)
    ensures r.None? <==> interval == "1h"
    ensures interval != "1h" && interval !in IntervalMap ==> r == Some("day")
    ensures interval in IntervalMap ==> r == Some(IntervalMap[interval])
  {
    if interval == "1h" then None
    else if interval in IntervalMap then Some(IntervalMap[interval])
    else Some("day")
  }

  const IntervalMap: map<string, string> :=
    map["1m" := "1minute", "30m" := "30minute", "1d" := "day", "1w" := "week", "1M" := "month"]

  /** The candle URL, when the interval is accepted. */
  function HistoricalUrl(symbol: string, exchange: string, interval: string, toDate: string, fromDate: string)
    : (r: Option<string>)
    ensures r.None? <==> interval == "1h"
  {
    match UpstoxInterval(interval)
    case None => None
    case Some(iv) =>
      Some(BaseUrl + "/historical-candle/" + InstrumentKey(symbol, exchange) + "/" + iv + "/" + toDate + "/" + fromDate)
  }

  lemma IntervalExamples()
    ensures UpstoxInterval("30m") == Some("30minute")
    ensures UpstoxInterval("5m") == Some("day")
    ensures UpstoxInterval("1M") == Some("month") && UpstoxInterval("1m") == Some("1minute")
  {
    assert "5m" !in IntervalMap;
  }

  // ------------------------------------------------------------ authorise

  datatype Credentials = Credentials(apiKey: Option<string>, apiSecret: Option<string>, redirectUri: Option<string>)

  datatype AuthStep = ApiKeyRequired | Redirect(authUrl: string)

  const AuthPath: string := "/login/authorization/dialog?response_type=code&client_id="
  const RedirectParam: string := "&redirect_uri="

  /** `authenticate`, step one: a missing or empty API key fails; otherwise
      the user is sent to the authorisation dialog for that key, redirecting
      to the given URI or the local default. */
  function Authenticate(c: Credentials): AuthStep {
    var redirectUri := c.redirectUri.GetOr(DefaultRedirectUri);
    if c.apiKey.None? || c.apiKey.value == "" then ApiKeyRequired
    else Redirect(BaseUrl + AuthPath + c.apiKey.value + RedirectParam + redirectUri)
  }

  /** With a key, the URL is the dialog address followed by the key, the
      redirect parameter and the redirect URI, so the key and the URI can be
      read back from it. */
  lemma AuthenticateProperties(c: Credentials)
    ensures Authenticate(c).ApiKeyRequired? <==> c.apiKey.None? || c.apiKey.value == ""
    ensures Authenticate(c).Redirect? ==>
      var url := Authenticate(c).authUrl;
      var key := c.apiKey.value;
      var uri := c.redirectUri.GetOr(DefaultRedirectUri);
      var head := |BaseUrl + AuthPath|;
      && url[..head] == BaseUrl + AuthPath
      && url[head..head + |key|] == key
      && url[head + |key|..head + |key| + |RedirectParam|] == RedirectParam
      && url[head + |key| + |RedirectParam|..] == uri
  {
  }
}
