/**
 * The process configuration, read once from the environment at start-up
 * (server.py lines 12 to 19) and then shared read-only by every request.
 */
module Settings {
  import opened Wrappers
  import opened Text

  datatype Config = Config(
    apiKey: string,
    apiSecret: string,
    baseUrl: string,
    allowedSymbols: set<string>,
    maxQuoteTrade: real)

  datatype ConfigError =
    /** `float(MAX_QUOTE_TRADE_USDT)` raised ValueError */
    | MaxQuoteNotANumber(text: string)
    /** `BINANCE_KEY` or `BINANCE_SECRET` is empty or unset */
    | MissingCredentials

  const DefaultBaseUrl := "https://testnet.binance.vision"
  const DefaultAllowedSymbols := "BTCUSDT,ETHUSDT"
  const DefaultMaxQuote := "100"

  /** `os.getenv(name, default)`: a variable that is set, even to "", wins over the default. */
  function Getenv(env: map<string, string>, name: string, default: string): string
  {
    if name in env then env[name] else default
  }

  /** `set(raw.split(","))`: no trimming, no case change. */
  function AllowList(raw: string): set<string>
  {
    set piece | piece in Split(raw, ',')
  }

  /**
   * Start-up. The maximum is parsed on line 16, before the credential check
   * on line 18, so a malformed maximum is reported even when the credentials
   * are missing too.
   */
  function LoadConfig(env: map<string, string>, parseFloat: string -> Option<real>): Result<Config, ConfigError>
  {
    var key := Getenv(env, "BINANCE_KEY", "");
    var secret := Getenv(env, "BINANCE_SECRET", "");
    var base := Getenv(env, "BASE_URL", DefaultBaseUrl);
    var allowed := AllowList(Getenv(env, "ALLOWED_SYMBOLS", DefaultAllowedSymbols));
    var maxText := Getenv(env, "MAX_QUOTE_TRADE_USDT", DefaultMaxQuote);
    match parseFloat(maxText)
    case None => Failure(MaxQuoteNotANumber(maxText))
    case Some(maxQuote) =>
      if key == "" || secret == "" then Failure(MissingCredentials)
      else Success(Config(key, secret, base, allowed, maxQuote))
  }

  /** Start-up succeeds exactly when the maximum parses and both credentials are non-empty; the
      configuration then holds the variables as read, with the allow-list split at commas. */
  lemma LoadConfigOutcome(env: map<string, string>, parseFloat: string -> Option<real>)
    ensures var maxText := Getenv(env, "MAX_QUOTE_TRADE_USDT", DefaultMaxQuote);
      && (parseFloat(maxText).None? ==> LoadConfig(env, parseFloat) == Failure(MaxQuoteNotANumber(maxText)))
      && (LoadConfig(env, parseFloat).Success? <==>
            parseFloat(maxText).Some? && Getenv(env, "BINANCE_KEY", "") != "" && Getenv(env, "BINANCE_SECRET", "") != "")
      && (LoadConfig(env, parseFloat).Success? ==>
            var cfg := LoadConfig(env, parseFloat).value;
            && cfg.apiKey == env["BINANCE_KEY"]
            && cfg.apiSecret == env["BINANCE_SECRET"]
            && cfg.baseUrl == Getenv(env, "BASE_URL", DefaultBaseUrl)
            && cfg.maxQuoteTrade == parseFloat(maxText).value
            && (forall s :: s in cfg.allowedSymbols <==> s in Split(Getenv(env, "ALLOWED_SYMBOLS", DefaultAllowedSymbols), ',')))
  {
  }

  /** Every allow-list entry is a comma-free piece, and the pieces joined with commas give back the variable. */
  lemma AllowListPieces(raw: string)
    ensures forall s :: s in AllowList(raw) ==> ',' !in s
    ensures Join(Split(raw, ','), ',') == raw
    ensures |Split(raw, ',')| == Occurrences(raw, ',') + 1
  {
  }

  /** Two comma-free symbols joined by one comma allow exactly those two symbols. */
  lemma TwoSymbolAllowList(a: string, b: string)
    requires ',' !in a && ',' !in b
    ensures AllowList(a + "," + b) == {a, b}
  {
    assert a + "," + b == a + [','] + b;
    SplitFirst(a, b, ',');
    SplitWithoutSeparator(b, ',');
  }

  /** Without `ALLOWED_SYMBOLS` the allow-list is exactly BTCUSDT and ETHUSDT. */
  lemma DefaultAllowList(env: map<string, string>)
    requires "ALLOWED_SYMBOLS" !in env
    ensures AllowList(Getenv(env, "ALLOWED_SYMBOLS", DefaultAllowedSymbols)) == {"BTCUSDT", "ETHUSDT"}
  {
    var raw := Getenv(env, "ALLOWED_SYMBOLS", DefaultAllowedSymbols);
    assert raw == "BTCUSDT" + "," + "ETHUSDT" by {
      assert raw == DefaultAllowedSymbols;
    }
    assert AllowList(raw) == {"BTCUSDT", "ETHUSDT"} by {
      TwoSymbolAllowList("BTCUSDT", "ETHUSDT");
    }
  }

  /** An empty piece (an empty variable, a doubled or a trailing comma) puts the empty symbol on the allow-list. */
  lemma EmptyPieceAllowsEmpty(a: string, b: string)
    ensures "" in AllowList("")
    ensures "" in AllowList(a + ",," + b)
    ensures "" in AllowList(a + ",")
  {
    assert a + ",," + b == a + [','] + ([','] + b);
    SplitAround(a, [','] + b, ',');
    SplitAround([], b, ',');
    assert [] + [','] + b == [','] + b;
    assert a + "," == a + [','] + "";
    SplitLast(a, "", ',');
  }
}
