/** The configuration model: global settings, per-symbol settings, the trading
    gate and the target-delta resolver. */
module Configuration {
  import opened Wrappers
  import opened Broker

  datatype AccountConfig = AccountConfig(number: string, marginUsage: real)

  datatype OptionChainsConfig = OptionChainsConfig(expirations: nat, strikes: nat)

  datatype RollWhenConfig = RollWhenConfig(dte: int)

  /** A nested `puts` or `calls` section: a delta override for one right. */
  datatype RightTarget = RightTarget(delta: Option<real>)

  /** The global target. Its own `delta` is optional: a configuration may be
      built without one. */
  datatype TargetConfig = TargetConfig(
    dte: int,
    minimumOpenInterest: nat,
    delta: Option<real>,
    puts: Option<RightTarget>,
    calls: Option<RightTarget>)

  datatype SymbolConfig = SymbolConfig(
    weight: real,
    noTrading: bool,
    delta: Option<real>,
    puts: Option<RightTarget>,
    calls: Option<RightTarget>)

  datatype Config = Config(
    account: AccountConfig,
    optionChains: OptionChainsConfig,
    rollWhen: RollWhenConfig,
    target: TargetConfig,
    symbols: map<string, SymbolConfig>)

  datatype ConfigError =
    | UnknownSymbol(symbol: string)
    | NoTargetDelta(symbol: string, right: Right)

  /** A delta, where one is given, lies in (0, 1]. */
  predicate ValidDelta(d: Option<real>) {
    d.Some? ==> 0.0 < d.value <= 1.0
  }

  predicate ValidRightTarget(t: Option<RightTarget>) {
    t.Some? ==> ValidDelta(t.value.delta)
  }

  predicate ValidSymbol(s: SymbolConfig) {
    && s.weight >= 0.0
    && ValidDelta(s.delta)
    && ValidRightTarget(s.puts)
    && ValidRightTarget(s.calls)
  }

  /** What the configuration loader guarantees about the values it builds. */
  predicate Valid(c: Config) {
    && c.account.marginUsage > 0.0
    && c.optionChains.expirations > 0
    && c.optionChains.strikes > 0
    && ValidDelta(c.target.delta)
    && ValidRightTarget(c.target.puts)
    && ValidRightTarget(c.target.calls)
    && forall s :: s in c.symbols ==> ValidSymbol(c.symbols[s])
  }

  /** The trading gate: a configured symbol may be traded unless its `no_trading`
      flag is set; asking about an unconfigured symbol is an error. */
  function TradingIsAllowed(c: Config, symbol: string): (r: Result<bool, ConfigError>)
    ensures r.Failure? <==> symbol !in c.symbols
    ensures r.Failure? ==> r.error == UnknownSymbol(symbol)
    ensures r.Success? ==> (r.value <==> !c.symbols[symbol].noTrading)
  {
    if symbol in c.symbols then Success(!c.symbols[symbol].noTrading)
    else Failure(UnknownSymbol(symbol))
  }

  /** The delta of a nested `puts` / `calls` section, if both are present. */
  function OverrideDelta(t: Option<RightTarget>): Option<real> {
    if t.Some? then t.value.delta else None
  }

  function SymbolRightTarget(s: SymbolConfig, right: Right): Option<RightTarget> {
    match right
    case Put => s.puts
    case Call => s.calls
  }

  function GlobalRightTarget(t: TargetConfig, right: Right): Option<RightTarget> {
    match right
    case Put => t.puts
    case Call => t.calls
  }

  /** The four override levels of the target delta, most specific first. */
  function DeltaChain(s: SymbolConfig, t: TargetConfig, right: Right): seq<Option<real>> {
    [ OverrideDelta(SymbolRightTarget(s, right)),
      s.delta,
      OverrideDelta(GlobalRightTarget(t, right)),
      t.delta ]
  }

  /** Index i holds the first present value of the chain. */
  ghost predicate FirstPresentAt(chain: seq<Option<real>>, i: int) {
    && 0 <= i < |chain|
    && chain[i].Some?
    && forall j :: 0 <= j < i ==> chain[j].None?
  }

  /** The first present value of an ordered list of optional lookups. */
  function FirstPresent(chain: seq<Option<real>>): (r: Option<real>)
    ensures r.None? <==> forall i :: 0 <= i < |chain| ==> chain[i].None?
    ensures r.Some? ==> exists i :: FirstPresentAt(chain, i) && chain[i] == r
  {
    if |chain| == 0 then None
    else if chain[0].Some? then
      assert FirstPresentAt(chain, 0);
      chain[0]
    else
      var r := FirstPresent(chain[1..]);
      assert r.Some? ==> exists i :: FirstPresentAt(chain, i) && chain[i] == r by {
        if r.Some? {
          var i :| FirstPresentAt(chain[1..], i) && chain[1..][i] == r;
          assert FirstPresentAt(chain, i + 1);
        }
      }
      r
  }

  /** The target delta for `symbol` and `right`: the symbol's right-specific
      override, else the symbol's delta, else the global right-specific override,
      else the global delta. */
  function GetTargetDelta(c: Config, symbol: string, right: Right): (r: Result<real, ConfigError>)
    ensures symbol !in c.symbols ==> r == Failure(UnknownSymbol(symbol))
    ensures symbol in c.symbols && c.target.delta.Some? ==> r.Success?
    ensures Valid(c) && r.Success? ==> 0.0 < r.value <= 1.0
  {
    if symbol !in c.symbols then Failure(UnknownSymbol(symbol))
    else
      var s := c.symbols[symbol];
      var symbolRight := OverrideDelta(SymbolRightTarget(s, right));
      var globalRight := OverrideDelta(GlobalRightTarget(c.target, right));
      if symbolRight.Some? then Success(symbolRight.value)
      else if s.delta.Some? then Success(s.delta.value)
      else if globalRight.Some? then Success(globalRight.value)
      else if c.target.delta.Some? then Success(c.target.delta.value)
      else Failure(NoTargetDelta(symbol, right))
  }

  /** The resolver returns the first present level of the override chain, and
      fails only when no level is present. */
  lemma GetTargetDeltaIsFirstPresent(c: Config, symbol: string, right: Right)
    requires symbol in c.symbols
    ensures var chain := DeltaChain(c.symbols[symbol], c.target, right);
      && (GetTargetDelta(c, symbol, right).Failure? <==> FirstPresent(chain).None?)
      && (GetTargetDelta(c, symbol, right).Success? ==>
            FirstPresent(chain) == Some(GetTargetDelta(c, symbol, right).value))
  {
    var chain := DeltaChain(c.symbols[symbol], c.target, right);
    if FirstPresent(chain).Some? {
      var i :| FirstPresentAt(chain, i) && chain[i] == FirstPresent(chain);
      FirstPresentLevelWins(c, symbol, right, i);
    } else {
      assert chain[0].None? && chain[1].None? && chain[2].None? && chain[3].None?;
    }
  }

  /** Precedence: when level i of the chain is the first one present, the
      resolver returns its value, whatever the less specific levels hold. */
  lemma FirstPresentLevelWins(c: Config, symbol: string, right: Right, i: int)
    requires symbol in c.symbols
    requires FirstPresentAt(DeltaChain(c.symbols[symbol], c.target, right), i)
    ensures GetTargetDelta(c, symbol, right)
         == Success(DeltaChain(c.symbols[symbol], c.target, right)[i].value)
  {
    var chain := DeltaChain(c.symbols[symbol], c.target, right);
    assert i == 0 || chain[0].None?;
    assert i <= 1 || chain[1].None?;
    assert i <= 2 || chain[2].None?;
  }

  /** The gate reads only the symbol's own `no_trading` flag: weights, deltas,
      global targets and the other symbols play no part. */
  lemma TradingGateReadsOnlyNoTrading(c1: Config, c2: Config, symbol: string)
    requires symbol in c1.symbols && symbol in c2.symbols
    requires c1.symbols[symbol].noTrading == c2.symbols[symbol].noTrading
    ensures TradingIsAllowed(c1, symbol) == TradingIsAllowed(c2, symbol)
    ensures TradingIsAllowed(c1, symbol).Success?
  {
  }
}
