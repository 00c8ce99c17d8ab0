/** Concrete scenarios: the configurations, positions and orders of the
    repository's own unit tests, with the outcomes those tests expect. */
module Scenarios {
  import opened Wrappers
  import opened Broker
  import opened Configuration
  import opened Util

  // ---------------------------------------------------------------------------
  // Configurations
  // ---------------------------------------------------------------------------

  /** A symbol with weight 1 and no overrides of its own. */
  function PlainSymbol(noTrading: bool): SymbolConfig {
    SymbolConfig(1.0, noTrading, None, None, None)
  }

  /** The global target of the tests: one day to expiry, no open-interest floor. */
  function BaseTarget(delta: Option<real>, puts: Option<RightTarget>, calls: Option<RightTarget>): TargetConfig {
    TargetConfig(1, 0, delta, puts, calls)
  }

  /** A configuration holding a single symbol. */
  function SingleSymbol(symbol: string, s: SymbolConfig, t: TargetConfig): (c: Config)
    ensures c.symbols.Keys == {symbol}
  {
    Config(AccountConfig("TEST", 1.0), OptionChainsConfig(1, 1), RollWhenConfig(1), t, map[symbol := s])
  }

  // ---------------------------------------------------------------------------
  // Trading gate
  // ---------------------------------------------------------------------------

  /** A symbol flagged `no_trading` may not be traded. */
  lemma GateBlocksFlaggedSymbol()
    ensures TradingIsAllowed(SingleSymbol("AAPL", PlainSymbol(true), BaseTarget(None, None, None)), "AAPL")
         == Success(false)
  {
  }

  /** A symbol without the flag may be traded. */
  lemma GateAllowsUnflaggedSymbol()
    ensures TradingIsAllowed(SingleSymbol("AAPL", PlainSymbol(false), BaseTarget(None, None, None)), "AAPL")
         == Success(true)
  {
  }

  /** A symbol that is not configured at all is an error, not a yes or a no. */
  lemma GateRejectsUnknownSymbol()
    ensures TradingIsAllowed(SingleSymbol("AAPL", PlainSymbol(false), BaseTarget(None, None, None)), "MSFT")
         == Failure(UnknownSymbol("MSFT"))
  {
  }

  // ---------------------------------------------------------------------------
  // Target delta
  // ---------------------------------------------------------------------------

  /** The global delta serves both rights when nothing overrides it. */
  lemma DeltaFromGlobalDefault()
    ensures var c := SingleSymbol("SPY", PlainSymbol(false), BaseTarget(Some(0.5), None, None));
      && GetTargetDelta(c, "SPY", Put) == Success(0.5)
      && GetTargetDelta(c, "SPY", Call) == Success(0.5)
  {
  }

  /** A global override for puts applies to puts. */
  lemma DeltaFromGlobalPutOverride()
    ensures var c := SingleSymbol("SPY", PlainSymbol(false),
                                  BaseTarget(Some(0.5), Some(RightTarget(Some(0.4))), None));
      GetTargetDelta(c, "SPY", Put) == Success(0.4)
  {
  }

  /** A global override for calls applies to calls and leaves puts on the
      global delta. */
  lemma DeltaFromGlobalCallOverride()
    ensures var c := SingleSymbol("SPY", PlainSymbol(false),
                                  BaseTarget(Some(0.5), None, Some(RightTarget(Some(0.4)))));
      && GetTargetDelta(c, "SPY", Put) == Success(0.5)
      && GetTargetDelta(c, "SPY", Call) == Success(0.4)
  {
  }

  /** The symbol's own delta beats the global override for calls. */
  lemma DeltaFromSymbolDelta()
    ensures var c := SingleSymbol("SPY", SymbolConfig(1.0, false, Some(0.3), None, None),
                                  BaseTarget(Some(0.5), None, Some(RightTarget(Some(0.4)))));
      GetTargetDelta(c, "SPY", Call) == Success(0.3)
  {
  }

  /** The symbol's override for puts beats its own delta, which still serves
      calls. */
  lemma DeltaFromSymbolPutOverride()
    ensures var c := SingleSymbol("SPY", SymbolConfig(1.0, false, Some(0.3), Some(RightTarget(Some(0.2))), None),
                                  BaseTarget(Some(0.5), None, Some(RightTarget(Some(0.4)))));
      && GetTargetDelta(c, "SPY", Call) == Success(0.3)
      && GetTargetDelta(c, "SPY", Put) == Success(0.2)
  {
  }

  /** With no level of the chain present there is no delta to return. */
  lemma DeltaMissingEverywhere()
    ensures var c := SingleSymbol("SPY", PlainSymbol(false), BaseTarget(None, None, None));
      GetTargetDelta(c, "SPY", Put) == Failure(NoTargetDelta("SPY", Put))
  {
  }

  // ---------------------------------------------------------------------------
  // Position PnL
  // ---------------------------------------------------------------------------

  /** An option position of the tests' portfolio snapshots. */
  function OptionItem(expiration: string, strike: real, right: Right, position: real,
                      averageCost: real, unrealizedPnl: real): PortfolioItem {
    PortfolioItem(OptionContract(expiration, strike, right, 100), position, averageCost, unrealizedPnl)
  }

  /** A short QQQ put that has lost money: about -0.85 of its cost. */
  lemma PnlOfLosingShortPut()
    ensures var r := PositionPnl(OptionItem("20201218", 300.0, Put, -1.0, 222.4293, -189.51));
      r.Success? && -0.855 < r.value < -0.845
  {
  }

  /** 100 SPY shares slightly under water: about -0.0079 of their cost. */
  lemma PnlOfStockPosition()
    ensures var r := PositionPnl(PortfolioItem(Stock, 100.0, 368.42, -292.4));
      r.Success? && -0.00795 < r.value < -0.00785
  {
  }

  /** A short SPY call that has made money: about 0.52 of its cost. */
  lemma PnlOfWinningShortCall()
    ensures var r := PositionPnl(OptionItem("20201214", 373.0, Call, -1.0, 565.76, 293.19));
      r.Success? && 0.515 < r.value < 0.525
  {
  }

  /** A short SPY put that has lost money: about -0.13 of its cost. */
  lemma PnlOfLosingShortSpyPut()
    ensures var r := PositionPnl(OptionItem("20210122", 352.5, Put, -1.0, 528.9025, -67.81));
      r.Success? && -0.135 < r.value < -0.125
  {
  }

  // ---------------------------------------------------------------------------
  // Net short positions
  // ---------------------------------------------------------------------------

  /** The option position built by the tests' helper: everything but the
      expiration, strike, right and quantity is fixed. */
  function Con(expiration: string, strike: real, right: Right, position: real): PortfolioItem {
    OptionItem(expiration, strike, right, position, 528.9025, -67.81)
  }

  /** Two expiration dates, three and thirty days out; only their being
      different matters. */
  const Near: string := "exp3"
  const Far: string := "exp30"

  lemma NetOfPair(a: PortfolioItem, b: PortfolioItem, k: OptionKey)
    ensures NetOf([a, b], k) == Share(a, k) + Share(b, k)
  {
    assert [a, b][..1] == [a];
    assert [a][..0] == [];
    assert NetOf([a], k) == Share(a, k);
  }

  lemma NetOfTriple(a: PortfolioItem, b: PortfolioItem, c: PortfolioItem, k: OptionKey)
    ensures NetOf([a, b, c], k) == Share(a, k) + Share(b, k) + Share(c, k)
  {
    assert [a, b, c][..2] == [a, b];
    NetOfPair(a, b, k);
  }

  lemma NetOfQuad(a: PortfolioItem, b: PortfolioItem, c: PortfolioItem, d: PortfolioItem, k: OptionKey)
    ensures NetOf([a, b, c, d], k) == Share(a, k) + Share(b, k) + Share(c, k) + Share(d, k)
  {
    assert [a, b, c, d][..3] == [a, b, c];
    NetOfTriple(a, b, c, k);
  }

  /** The groups of a list of option positions are the groups of its members. */
  lemma GroupsOfOptions(ps: seq<PortfolioItem>)
    requires forall i :: 0 <= i < |ps| ==> ps[i].contract.OptionContract?
    ensures Groups(ps) == set i | 0 <= i < |ps| :: KeyOf(ps[i]).value
  {
    var keys := set i | 0 <= i < |ps| :: KeyOf(ps[i]).value;
    forall k | k in Groups(ps)
      ensures k in keys
    {
      var i :| 0 <= i < |ps| && KeyOf(ps[i]) == Some(k);
      assert KeyOf(ps[i]).value == k;
    }
    forall k | k in keys
      ensures k in Groups(ps)
    {
      var i :| 0 <= i < |ps| && KeyOf(ps[i]).value == k;
      assert KeyOf(ps[i]) == Some(k);
    }
    assert Groups(ps) == keys;
  }

  /** One short put is one net short put. */
  lemma NetShortSingleShortPut()
    ensures NetShortCount([Con(Near, 69.0, Put, -1.0)], Put) == 1
  {
    var ps := [Con(Near, 69.0, Put, -1.0)];
    var k := OptionKey(Near, 69.0, Put);
    assert ps[..0] == [];
    GroupsOfOptions(ps);
    assert Groups(ps) == {k};
    assert NetOf(ps, k) == -1.0;
    assert NetShortGroups(ps, Put) == {k};
  }

  /** A long call at the same strike does not cover a short put. */
  lemma NetShortCallDoesNotCoverPut()
    ensures NetShortCount([Con(Near, 69.0, Put, -1.0), Con(Near, 69.0, Call, 1.0)], Put) == 1
    ensures NetShortCount([Con(Near, 69.0, Put, -1.0), Con(Near, 69.0, Call, 1.0)], Call) == 0
  {
    var a, b := Con(Near, 69.0, Put, -1.0), Con(Near, 69.0, Call, 1.0);
    var kp, kc := OptionKey(Near, 69.0, Put), OptionKey(Near, 69.0, Call);
    GroupsOfOptions([a, b]);
    assert Groups([a, b]) == {kp, kc};
    NetOfPair(a, b, kp);
    NetOfPair(a, b, kc);
    assert NetShortGroups([a, b], Put) == {kp};
    assert NetShortGroups([a, b], Call) == {};
  }

  /** A long call at the same expiration and strike covers a short call. */
  lemma NetShortCoveredCall()
    ensures NetShortCount([Con(Near, 69.0, Call, -1.0), Con(Near, 69.0, Call, 1.0)], Call) == 0
  {
    var a, b := Con(Near, 69.0, Call, -1.0), Con(Near, 69.0, Call, 1.0);
    var k := OptionKey(Near, 69.0, Call);
    GroupsOfOptions([a, b]);
    assert Groups([a, b]) == {k};
    NetOfPair(a, b, k);
    assert NetShortGroups([a, b], Call) == {};
  }

  /** An extra long call at another expiration leaves a covered call covered. */
  lemma NetShortCoveredCallWithFarLong()
    ensures NetShortCount([Con(Near, 69.0, Call, -1.0), Con(Near, 69.0, Call, 1.0),
                           Con(Far, 69.0, Call, 1.0)], Call) == 0
  {
    var a, b, c := Con(Near, 69.0, Call, -1.0), Con(Near, 69.0, Call, 1.0), Con(Far, 69.0, Call, 1.0);
    var kn, kf := OptionKey(Near, 69.0, Call), OptionKey(Far, 69.0, Call);
    GroupsOfOptions([a, b, c]);
    assert Groups([a, b, c]) == {kn, kf};
    NetOfTriple(a, b, c, kn);
    NetOfTriple(a, b, c, kf);
    assert NetShortGroups([a, b, c], Call) == {};
  }

  /** A short put beside a covered call changes nothing for calls. */
  lemma NetShortCoveredCallBesidePut()
    ensures NetShortCount([Con(Near, 69.0, Call, -1.0), Con(Near, 69.0, Put, -1.0),
                           Con(Near, 69.0, Call, 1.0), Con(Far, 69.0, Call, 1.0)], Call) == 0
  {
    var a, b, c, d := Con(Near, 69.0, Call, -1.0), Con(Near, 69.0, Put, -1.0),
                      Con(Near, 69.0, Call, 1.0), Con(Far, 69.0, Call, 1.0);
    var kn, kp, kf := OptionKey(Near, 69.0, Call), OptionKey(Near, 69.0, Put), OptionKey(Far, 69.0, Call);
    var ps := [a, b, c, d];
    GroupsOfOptions(ps);
    assert KeyOf(ps[0]).value == kn && KeyOf(ps[1]).value == kp && KeyOf(ps[2]).value == kn && KeyOf(ps[3]).value == kf;
    assert Groups(ps) == {kn, kp, kf};
    NetOfQuad(a, b, c, d, kn);
    NetOfQuad(a, b, c, d, kf);
    assert NetShortGroups([a, b, c, d], Call) == {};
  }

  /** The same with the far long call at another strike. */
  lemma NetShortCoveredCallBesidePutOtherStrike()
    ensures NetShortCount([Con(Near, 69.0, Call, -1.0), Con(Near, 69.0, Put, -1.0),
                           Con(Near, 69.0, Call, 1.0), Con(Far, 70.0, Call, 1.0)], Call) == 0
  {
    var a, b, c, d := Con(Near, 69.0, Call, -1.0), Con(Near, 69.0, Put, -1.0),
                      Con(Near, 69.0, Call, 1.0), Con(Far, 70.0, Call, 1.0);
    var kn, kp, kf := OptionKey(Near, 69.0, Call), OptionKey(Near, 69.0, Put), OptionKey(Far, 70.0, Call);
    var ps := [a, b, c, d];
    GroupsOfOptions(ps);
    assert KeyOf(ps[0]).value == kn && KeyOf(ps[1]).value == kp && KeyOf(ps[2]).value == kn && KeyOf(ps[3]).value == kf;
    assert Groups(ps) == {kn, kp, kf};
    NetOfQuad(a, b, c, d, kn);
    NetOfQuad(a, b, c, d, kf);
    assert NetShortGroups([a, b, c, d], Call) == {};
  }

  /** Two short calls against one long call at the same strike leave one net
      short call; a long call elsewhere does not help. */
  lemma NetShortPartlyCovered()
    ensures NetShortCount([Con(Near, 69.0, Call, -1.0), Con(Near, 69.0, Call, -1.0),
                           Con(Near, 69.0, Call, 1.0), Con(Far, 70.0, Call, 1.0)], Call) == 1
  {
    var a, b, c, d := Con(Near, 69.0, Call, -1.0), Con(Near, 69.0, Call, -1.0),
                      Con(Near, 69.0, Call, 1.0), Con(Far, 70.0, Call, 1.0);
    var kn, kf := OptionKey(Near, 69.0, Call), OptionKey(Far, 70.0, Call);
    GroupsOfOptions([a, b, c, d]);
    assert Groups([a, b, c, d]) == {kn, kf};
    NetOfQuad(a, b, c, d, kn);
    NetOfQuad(a, b, c, d, kf);
    assert NetShortGroups([a, b, c, d], Call) == {kn};
  }

  // ---------------------------------------------------------------------------
  // Weighted-average strike
  // ---------------------------------------------------------------------------

  /** With one short call and one short put, the short calls average the
      call's strike. */
  lemma AvgStrikeBothShortCalls()
    ensures WeightedAvgShortStrike([Con("", 50.0, Call, -1.0), Con("", 40.0, Put, -1.0)], Call) == Success(50.0)
  {
    var ps := [Con("", 50.0, Call, -1.0), Con("", 40.0, Put, -1.0)];
    assert Qualifies(ps[0], Call, Short);
    WeightedAvgOfOneStrike(ps, Call, Short, 50.0);
  }

  /** In the same portfolio the short puts average the put's strike. */
  lemma AvgStrikeBothShortPuts()
    ensures WeightedAvgShortStrike([Con("", 50.0, Call, -1.0), Con("", 40.0, Put, -1.0)], Put) == Success(40.0)
  {
    var ps := [Con("", 50.0, Call, -1.0), Con("", 40.0, Put, -1.0)];
    assert Qualifies(ps[1], Put, Short);
    WeightedAvgOfOneStrike(ps, Put, Short, 40.0);
  }

  /** A long put is ignored by the short-call average. */
  lemma AvgStrikeShortIgnoresLong()
    ensures WeightedAvgShortStrike([Con("", 50.0, Call, -1.0), Con("", 40.0, Put, 1.0)], Call) == Success(50.0)
  {
    var ps := [Con("", 50.0, Call, -1.0), Con("", 40.0, Put, 1.0)];
    assert Qualifies(ps[0], Call, Short);
    WeightedAvgOfOneStrike(ps, Call, Short, 50.0);
  }

  /** A long call is ignored by the long-put average. */
  lemma AvgStrikeLongIgnoresOtherRight()
    ensures WeightedAvgLongStrike([Con("", 50.0, Call, 1.0), Con("", 40.0, Put, 1.0)], Put) == Success(40.0)
  {
    var ps := [Con("", 50.0, Call, 1.0), Con("", 40.0, Put, 1.0)];
    assert Qualifies(ps[1], Put, Long);
    WeightedAvgOfOneStrike(ps, Put, Long, 40.0);
  }

  /** Two short calls of sizes 1 and 3 at strikes 40 and 60 average to 55. */
  lemma AvgStrikeWeightsByQuantity()
    ensures WeightedAvgShortStrike([Con("", 40.0, Call, -1.0), Con("", 60.0, Call, -3.0)], Call) == Success(55.0)
  {
    var ps := [Con("", 40.0, Call, -1.0), Con("", 60.0, Call, -3.0)];
    assert ps[..1] == [ps[0]];
    var ls := [Leg(40.0, 1.0), Leg(60.0, 3.0)];
    assert Selection(ps, Call, Short) == ls;
    assert ls[..1] == [ls[0]];
    assert TotalQuantity(ls) == 4.0;
    assert StrikeTotal(ls) == 220.0;
  }

  // ---------------------------------------------------------------------------
  // Order pricing guard
  // ---------------------------------------------------------------------------

  /** Buy orders widen the spread by bidding less; sell orders by asking more;
      the sign of the limit price plays no part. */
  lemma SpreadGuardCases()
    ensures !WouldIncreaseSpread(Order(Buy, -10.0), -5.0)
    ensures WouldIncreaseSpread(Order(Buy, -10.0), -15.0)
    ensures WouldIncreaseSpread(Order(Buy, 10.0), 5.0)
    ensures !WouldIncreaseSpread(Order(Buy, 10.0), 15.0)
    ensures !WouldIncreaseSpread(Order(Sell, -10.0), -15.0)
    ensures WouldIncreaseSpread(Order(Sell, -10.0), -5.0)
    ensures WouldIncreaseSpread(Order(Sell, 10.0), 15.0)
    ensures !WouldIncreaseSpread(Order(Sell, 10.0), 5.0)
  {
  }
}
