/** Portfolio analytics and the order pricing guard: pure functions over snapshots
    of the account's positions and of a resting order. */
module Util {
  import opened Wrappers
  import opened Broker

  datatype AnalyticsError =
    | ZeroCostBasis          // the PnL ratio of a position with no cost basis
    | NoQualifyingPositions  // a weighted-average strike over an empty selection

  function Abs(x: real): real {
    if x < 0.0 then -x else x
  }

  // ---------------------------------------------------------------------------
  // Position PnL
  // ---------------------------------------------------------------------------

  /** What was paid for a position: the average cost per unit times the size
      held. No contract multiplier enters, since the brokerage's average cost of
      an option already includes it. */
  function CostBasis(p: PortfolioItem): real {
    p.averageCost * Abs(p.position)
  }

  /** The unrealized PnL of a position as a fraction of its cost basis. */
  function PositionPnl(p: PortfolioItem): (r: Result<real, AnalyticsError>)
    ensures r.Failure? <==> CostBasis(p) == 0.0
    ensures r.Failure? ==> r.error == ZeroCostBasis
    ensures r.Success? ==> r.value * CostBasis(p) == p.unrealizedPnl
  {
    var basis := CostBasis(p);
    if basis == 0.0 then Failure(ZeroCostBasis) else Success(p.unrealizedPnl / basis)
  }

  /** The ratio reads only the unrealized PnL, the average cost and the size of
      the position: neither its direction (long or short) nor anything about the
      contract, its multiplier included, changes it. */
  lemma PnlReadsOnlyCostAndSize(p: PortfolioItem, q: PortfolioItem)
    requires p.unrealizedPnl == q.unrealizedPnl
    requires p.averageCost == q.averageCost
    requires Abs(p.position) == Abs(q.position)
    ensures PositionPnl(p) == PositionPnl(q)
  {
    assert CostBasis(p) == CostBasis(q);
  }

  /** With a positive average cost, the ratio has the sign of the unrealized PnL. */
  lemma PnlHasSignOfUnrealizedPnl(p: PortfolioItem)
    requires p.averageCost > 0.0 && p.position != 0.0
    ensures PositionPnl(p).Success?
    ensures PositionPnl(p).value < 0.0 <==> p.unrealizedPnl < 0.0
    ensures PositionPnl(p).value > 0.0 <==> p.unrealizedPnl > 0.0
  {
    var basis := CostBasis(p);
    assert basis > 0.0 by { PositiveProduct(p.averageCost, Abs(p.position)); }
    var r := PositionPnl(p).value;
    assert r * basis == p.unrealizedPnl;
    SignOfProduct(r, basis);
  }

  lemma PositiveProduct(a: real, b: real)
    requires a > 0.0 && b > 0.0
    ensures a * b > 0.0
  {
  }

  lemma SignOfProduct(r: real, b: real)
    requires b > 0.0
    ensures r * b < 0.0 <==> r < 0.0
    ensures r * b > 0.0 <==> r > 0.0
  {
    if r < 0.0 {
      assert (-r) * b > 0.0 by { PositiveProduct(-r, b); }
    } else if r > 0.0 {
      PositiveProduct(r, b);
    }
  }

  // ---------------------------------------------------------------------------
  // Net short positions
  // ---------------------------------------------------------------------------

  /** The group an option position nets within. */
  datatype OptionKey = OptionKey(expiration: string, strike: real, right: Right)

  /** The group of a position; stock positions belong to none. */
  function KeyOf(p: PortfolioItem): Option<OptionKey> {
    match p.contract
    case Stock => None
    case OptionContract(expiration, strike, right, _) => Some(OptionKey(expiration, strike, right))
  }

  /** The groups that occur among the positions. */
  function Groups(ps: seq<PortfolioItem>): (g: set<OptionKey>)
    ensures forall k :: k in g <==> exists i :: 0 <= i < |ps| && KeyOf(ps[i]) == Some(k)
  {
    if |ps| == 0 then {}
    else
      var init, last := ps[..|ps| - 1], ps[|ps| - 1];
      assert forall i :: 0 <= i < |init| ==> init[i] == ps[i];
      Groups(init) + (if KeyOf(last).Some? then {KeyOf(last).value} else {})
  }

  /** What one position contributes to the net quantity of group k. */
  function Share(p: PortfolioItem, k: OptionKey): real {
    if KeyOf(p) == Some(k) then p.position else 0.0
  }

  /** The net signed quantity held in group k. */
  function NetOf(ps: seq<PortfolioItem>, k: OptionKey): real {
    if |ps| == 0 then 0.0 else NetOf(ps[..|ps| - 1], k) + Share(ps[|ps| - 1], k)
  }

  /** The groups of the given right whose net quantity is short. */
  function NetShortGroups(ps: seq<PortfolioItem>, right: Right): set<OptionKey> {
    set k | k in Groups(ps) && k.right == right && NetOf(ps, k) < 0.0
  }

  /** The number of net short groups of the given right. It is positive
      exactly when the group of some position of that right nets short, and
      never exceeds the number of positions. */
  function NetShortCount(ps: seq<PortfolioItem>, right: Right): (n: nat)
    ensures n > 0 <==> exists i :: 0 <= i < |ps| && KeyOf(ps[i]).Some? && KeyOf(ps[i]).value.right == right
                                   && NetOf(ps, KeyOf(ps[i]).value) < 0.0
    ensures n <= |ps|
  {
    var g := NetShortGroups(ps, right);
    GroupsAtMostPositions(ps);
    SubsetNoLarger(g, Groups(ps));
    if |g| > 0 then
      var k :| k in g;
      var i :| 0 <= i < |ps| && KeyOf(ps[i]) == Some(k);
      |g|
    else
      |g|
  }

  /** There are no more groups than positions. */
  lemma {:induction false} GroupsAtMostPositions(ps: seq<PortfolioItem>)
    ensures |Groups(ps)| <= |ps|
  {
    if |ps| > 0 {
      GroupsAtMostPositions(ps[..|ps| - 1]);
    }
  }

  lemma {:induction false} SubsetNoLarger<T>(a: set<T>, b: set<T>)
    requires a <= b
    ensures |a| <= |b|
    decreases |b|
  {
    if a != {} {
      var x :| x in a;
      SubsetNoLarger(a - {x}, b - {x});
    }
  }

  /** Counts the net short groups in one pass: the net quantity of every group
      is accumulated in a map, which is then filtered by right and sign. */
  method CalculateNetShortPositions(ps: seq<PortfolioItem>, right: Right) returns (n: nat)
    ensures n == NetShortCount(ps, right)
  {
    var nets: map<OptionKey, real> := map[];
    var i := 0;
    while i < |ps|
      invariant 0 <= i <= |ps|
      invariant nets.Keys == Groups(ps[..i])
      invariant forall k :: k in nets ==> nets[k] == NetOf(ps[..i], k)
    {
      assert ps[..i + 1][..i] == ps[..i];
      match KeyOf(ps[i]) {
        case Some(k) =>
          if k !in nets {
            NetOfOutsideGroups(ps[..i], k);
          }
          var before := if k in nets then nets[k] else 0.0;
          nets := nets[k := before + ps[i].position];
        case None =>
      }
      i := i + 1;
    }
    assert ps[..|ps|] == ps;
    var shorts := set k | k in nets && k.right == right && nets[k] < 0.0;
    assert shorts == NetShortGroups(ps, right);
    n := |shorts|;
  }

  /** A group that does not occur has no net quantity. */
  lemma {:induction false} NetOfOutsideGroups(ps: seq<PortfolioItem>, k: OptionKey)
    requires k !in Groups(ps)
    ensures NetOf(ps, k) == 0.0
  {
    if |ps| > 0 {
      var init := ps[..|ps| - 1];
      assert forall i :: 0 <= i < |init| ==> init[i] == ps[i];
      NetOfOutsideGroups(init, k);
    }
  }

  /** Netting is additive over a split of the positions. */
  lemma {:induction false} NetOfConcat(a: seq<PortfolioItem>, b: seq<PortfolioItem>, k: OptionKey)
    ensures NetOf(a + b, k) == NetOf(a, k) + NetOf(b, k)
  {
    if |b| == 0 {
      assert a + b == a;
    } else {
      var b' := b[..|b| - 1];
      assert (a + b)[..|a + b| - 1] == a + b';
      NetOfConcat(a, b', k);
    }
  }

  /** The groups of a concatenation are those of its parts. */
  lemma GroupsConcat(a: seq<PortfolioItem>, b: seq<PortfolioItem>)
    ensures Groups(a + b) == Groups(a) + Groups(b)
  {
    forall k | k in Groups(a + b)
      ensures k in Groups(a) + Groups(b)
    {
      var i :| 0 <= i < |a + b| && KeyOf((a + b)[i]) == Some(k);
      if i < |a| {
        assert (a + b)[i] == a[i];
      } else {
        assert (a + b)[i] == b[i - |a|];
      }
    }
    forall k | k in Groups(a)
      ensures k in Groups(a + b)
    {
      var i :| 0 <= i < |a| && KeyOf(a[i]) == Some(k);
      assert (a + b)[i] == a[i];
    }
    forall k | k in Groups(b)
      ensures k in Groups(a + b)
    {
      var i :| 0 <= i < |b| && KeyOf(b[i]) == Some(k);
      assert (a + b)[|a| + i] == b[i];
    }
  }

  /** A group occurs exactly when some listed position belongs to it. */
  lemma GroupsByMembership(ps: seq<PortfolioItem>, k: OptionKey)
    ensures k in Groups(ps) <==> exists p :: p in ps && KeyOf(p) == Some(k)
  {
    if exists p :: p in ps && KeyOf(p) == Some(k) {
      var p :| p in ps && KeyOf(p) == Some(k);
      var i :| 0 <= i < |ps| && ps[i] == p;
    }
  }

  /** Listing the same positions in another order nets every group alike. */
  lemma {:induction false} NetOfPermutation(ps: seq<PortfolioItem>, qs: seq<PortfolioItem>, k: OptionKey)
    requires multiset(ps) == multiset(qs)
    ensures NetOf(ps, k) == NetOf(qs, k)
    decreases |ps|
  {
    if |ps| > 0 {
      var init, last := ps[..|ps| - 1], ps[|ps| - 1];
      assert ps == init + [last];
      assert last in multiset(qs);
      var j :| 0 <= j < |qs| && qs[j] == last;
      var before, after := qs[..j], qs[j + 1..];
      assert qs == before + [last] + after;
      RemoveMatchingLast(ps, qs, j);
      NetOfPermutation(init, before + after, k);
      NetOfConcat(before, after, k);
      NetOfConcat(before + [last], after, k);
      NetOfConcat(before, [last], k);
      assert [last][..0] == [];
    } else {
      assert |qs| == |multiset(qs)| == 0;
    }
  }

  /** Taking the last position off one listing and the same position off the
      other leaves two listings of the same positions. */
  lemma RemoveMatchingLast(ps: seq<PortfolioItem>, qs: seq<PortfolioItem>, j: int)
    requires multiset(ps) == multiset(qs)
    requires |ps| > 0 && 0 <= j < |qs| && qs[j] == ps[|ps| - 1]
    ensures multiset(ps[..|ps| - 1]) == multiset(qs[..j] + qs[j + 1..])
  {
    var init, last := ps[..|ps| - 1], ps[|ps| - 1];
    assert ps == init + [last];
    assert qs == qs[..j] + [last] + qs[j + 1..];
    var rest := multiset(qs[..j] + qs[j + 1..]);
    assert multiset(qs) == rest + multiset{last};
    assert multiset(init) + multiset{last} == rest + multiset{last};
    forall y
      ensures multiset(init)[y] == rest[y]
    {
      assert (multiset(init) + multiset{last})[y] == (rest + multiset{last})[y];
    }
  }

  /** The counted groups, and so the count, do not depend on the order in which
      the positions are listed. */
  lemma NetShortCountOrderInsensitive(ps: seq<PortfolioItem>, qs: seq<PortfolioItem>, right: Right)
    requires multiset(ps) == multiset(qs)
    ensures NetShortGroups(ps, right) == NetShortGroups(qs, right)
    ensures NetShortCount(ps, right) == NetShortCount(qs, right)
  {
    forall k
      ensures k in Groups(ps) <==> k in Groups(qs)
      ensures NetOf(ps, k) == NetOf(qs, k)
    {
      GroupsByMembership(ps, k);
      GroupsByMembership(qs, k);
      assert forall p :: p in ps <==> p in qs by {
        forall p
          ensures p in ps <==> p in qs
        {
          assert p in ps <==> p in multiset(ps);
          assert p in qs <==> p in multiset(qs);
        }
      }
      NetOfPermutation(ps, qs, k);
    }
  }

  /** A group nets short only if it holds at least one short position. */
  lemma {:induction false} NegativeNetHasShortLeg(ps: seq<PortfolioItem>, k: OptionKey)
    requires NetOf(ps, k) < 0.0
    ensures exists i :: 0 <= i < |ps| && KeyOf(ps[i]) == Some(k) && ps[i].position < 0.0
  {
    var init, last := ps[..|ps| - 1], ps[|ps| - 1];
    if KeyOf(last) == Some(k) && last.position < 0.0 {
      assert KeyOf(ps[|ps| - 1]) == Some(k);
    } else {
      NegativeNetHasShortLeg(init, k);
      var i :| 0 <= i < |init| && KeyOf(init[i]) == Some(k) && init[i].position < 0.0;
      assert ps[i] == init[i];
    }
  }

  /** A portfolio with no short position of the queried right has no net
      short group of that right, whatever it holds of the other right. */
  lemma NoShortLegNoNetShort(ps: seq<PortfolioItem>, right: Right)
    requires forall i :: 0 <= i < |ps| && KeyOf(ps[i]).Some? && KeyOf(ps[i]).value.right == right
                         ==> ps[i].position >= 0.0
    ensures NetShortCount(ps, right) == 0
  {
    forall k | k in NetShortGroups(ps, right)
      ensures false
    {
      NegativeNetHasShortLeg(ps, k);
    }
    assert NetShortGroups(ps, right) == {};
  }

  /** A position that is not an option of the queried right changes no counted
      group. */
  lemma OtherRightNeverCounts(ps: seq<PortfolioItem>, p: PortfolioItem, right: Right)
    requires KeyOf(p).None? || KeyOf(p).value.right != right
    ensures NetShortGroups(ps + [p], right) == NetShortGroups(ps, right)
  {
    GroupsConcat(ps, [p]);
    assert (ps + [p])[..|ps|] == ps;
  }

  /** A long position never creates a net short group, nor makes one short. */
  lemma LongNeverAddsShortGroup(ps: seq<PortfolioItem>, p: PortfolioItem, right: Right)
    requires p.position >= 0.0
    ensures NetShortGroups(ps + [p], right) <= NetShortGroups(ps, right)
  {
    GroupsConcat(ps, [p]);
    assert (ps + [p])[..|ps|] == ps;
    forall k | k in NetShortGroups(ps + [p], right)
      ensures k in Groups(ps)
    {
      if k !in Groups(ps) {
        NetOfOutsideGroups(ps, k);
      }
    }
  }

  /** A long position in a group that does not yet occur (another expiration or
      another strike) leaves the net short groups as they were. */
  lemma LongInNewGroupChangesNothing(ps: seq<PortfolioItem>, p: PortfolioItem, right: Right)
    requires p.position >= 0.0
    requires KeyOf(p).Some? && KeyOf(p).value !in Groups(ps)
    ensures NetShortGroups(ps + [p], right) == NetShortGroups(ps, right)
  {
    LongNeverAddsShortGroup(ps, p, right);
    GroupsConcat(ps, [p]);
    assert (ps + [p])[..|ps|] == ps;
  }

  /** A short and a long of the same size in the same group cancel out. */
  lemma OffsettingPairCancels(ps: seq<PortfolioItem>, s: PortfolioItem, l: PortfolioItem, right: Right)
    requires KeyOf(s) == KeyOf(l)
    requires s.position == -l.position
    ensures NetShortGroups(ps + [s, l], right) == NetShortGroups(ps, right)
  {
    GroupsConcat(ps, [s, l]);
    forall k | true
      ensures NetOf(ps + [s, l], k) == NetOf(ps, k)
    {
      NetOfConcat(ps, [s, l], k);
      assert [s, l][..1] == [s];
      assert [s][..0] == [];
      assert NetOf([s], k) == Share(s, k);
      assert NetOf([s, l], k) == NetOf([s], k) + Share(l, k);
    }
    forall k | k in NetShortGroups(ps + [s, l], right)
      ensures k in Groups(ps)
    {
      if k !in Groups(ps) {
        NetOfOutsideGroups(ps, k);
      }
    }
  }

  // ---------------------------------------------------------------------------
  // Weighted-average strike
  // ---------------------------------------------------------------------------

  /** Which sign of quantity a weighted-average strike selects. */
  datatype Side = Short | Long

  /** An option of the given right held on the given side. */
  predicate Qualifies(p: PortfolioItem, right: Right, side: Side) {
    && p.contract.OptionContract?
    && p.contract.right == right
    && match side
       case Short => p.position < 0.0
       case Long => p.position > 0.0
  }

  /** A selected position reduced to what the average reads: its strike and its
      absolute quantity, the weight. */
  datatype Leg = Leg(strike: real, quantity: real)

  function LegOf(p: PortfolioItem): Leg
    requires p.contract.OptionContract?
  {
    Leg(p.contract.strike, Abs(p.position))
  }

  /** The qualifying positions, in portfolio order, as legs. */
  function Selection(ps: seq<PortfolioItem>, right: Right, side: Side): (ls: seq<Leg>)
    ensures |ls| <= |ps|
    ensures forall j :: 0 <= j < |ls| ==> ls[j].quantity > 0.0
  {
    if |ps| == 0 then []
    else
      var last := ps[|ps| - 1];
      Selection(ps[..|ps| - 1], right, side)
        + if Qualifies(last, right, side) then [LegOf(last)] else []
  }

  /** The selection holds exactly the legs of the qualifying positions. */
  lemma {:induction false} SelectionMembers(ps: seq<PortfolioItem>, right: Right, side: Side)
    ensures forall i :: 0 <= i < |ps| && Qualifies(ps[i], right, side) ==>
      LegOf(ps[i]) in Selection(ps, right, side)
    ensures forall l :: l in Selection(ps, right, side) ==>
      exists i :: 0 <= i < |ps| && Qualifies(ps[i], right, side) && LegOf(ps[i]) == l
  {
    if |ps| > 0 {
      var init, last := ps[..|ps| - 1], ps[|ps| - 1];
      SelectionMembers(init, right, side);
      assert forall i :: 0 <= i < |init| ==> init[i] == ps[i];
    }
  }

  /** The selection is empty exactly when no position qualifies. */
  lemma {:induction false} SelectionEmptyIffNoneQualify(ps: seq<PortfolioItem>, right: Right, side: Side)
    ensures |Selection(ps, right, side)| == 0 <==> forall i :: 0 <= i < |ps| ==> !Qualifies(ps[i], right, side)
  {
    SelectionMembers(ps, right, side);
    if |Selection(ps, right, side)| > 0 {
      var l := Selection(ps, right, side)[0];
      assert l in Selection(ps, right, side);
    }
  }

  /** Selecting from a concatenation selects from each part. */
  lemma {:induction false} SelectionConcat(a: seq<PortfolioItem>, b: seq<PortfolioItem>, right: Right, side: Side)
    ensures Selection(a + b, right, side) == Selection(a, right, side) + Selection(b, right, side)
  {
    if |b| == 0 {
      assert a + b == a;
    } else {
      var b' := b[..|b| - 1];
      assert (a + b)[..|a + b| - 1] == a + b';
      assert (a + b)[|a + b| - 1] == b[|b| - 1];
      SelectionConcat(a, b', right, side);
    }
  }

  /** The total weight of some legs. */
  function TotalQuantity(ls: seq<Leg>): real {
    if |ls| == 0 then 0.0 else TotalQuantity(ls[..|ls| - 1]) + ls[|ls| - 1].quantity
  }

  /** The sum of strike times weight over some legs. */
  function StrikeTotal(ls: seq<Leg>): real {
    if |ls| == 0 then 0.0 else StrikeTotal(ls[..|ls| - 1]) + ls[|ls| - 1].strike * ls[|ls| - 1].quantity
  }

  /** Legs of positive weight have a positive total weight. */
  lemma {:induction false} TotalQuantityPositive(ls: seq<Leg>)
    requires |ls| > 0
    requires forall j :: 0 <= j < |ls| ==> ls[j].quantity > 0.0
    ensures TotalQuantity(ls) > 0.0
  {
    var init := ls[..|ls| - 1];
    if |init| > 0 {
      assert forall j :: 0 <= j < |init| ==> init[j] == ls[j];
      TotalQuantityPositive(init);
    }
  }

  /** The weighted average of the strikes of some legs. Legs whose weights sum
      to zero have no average: for the selections averaged here, whose weights
      are all positive, that happens only when nothing was selected, hence the
      name of the error. */
  function Average(ls: seq<Leg>): (r: Result<real, AnalyticsError>)
    ensures r.Failure? <==> TotalQuantity(ls) == 0.0
    ensures r.Failure? ==> r.error == NoQualifyingPositions
    ensures r.Success? ==> r.value * TotalQuantity(ls) == StrikeTotal(ls)
  {
    var w := TotalQuantity(ls);
    if w == 0.0 then Failure(NoQualifyingPositions) else Success(StrikeTotal(ls) / w)
  }

  /** Legs of non-negative weight have a non-negative total weight. */
  lemma {:induction false} TotalQuantityNonNegative(ls: seq<Leg>)
    requires forall j :: 0 <= j < |ls| ==> ls[j].quantity >= 0.0
    ensures TotalQuantity(ls) >= 0.0
  {
    if |ls| > 0 {
      var init := ls[..|ls| - 1];
      assert forall j :: 0 <= j < |init| ==> init[j] == ls[j];
      TotalQuantityNonNegative(init);
    }
  }

  /** The selection has weight exactly when some position qualifies. */
  lemma SelectionWeightIffQualifying(ps: seq<PortfolioItem>, right: Right, side: Side)
    ensures TotalQuantity(Selection(ps, right, side)) == 0.0
        <==> forall i :: 0 <= i < |ps| ==> !Qualifies(ps[i], right, side)
  {
    var ls := Selection(ps, right, side);
    SelectionEmptyIffNoneQualify(ps, right, side);
    if |ls| > 0 {
      TotalQuantityPositive(ls);
    }
  }

  /** The strike of the qualifying positions averaged with their absolute
      quantities as weights; an empty selection has no average. */
  function WeightedAvgStrike(ps: seq<PortfolioItem>, right: Right, side: Side): (r: Result<real, AnalyticsError>)
    ensures r.Failure? <==> forall i :: 0 <= i < |ps| ==> !Qualifies(ps[i], right, side)
    ensures r.Failure? ==> r.error == NoQualifyingPositions
    ensures r.Success? ==>
      r.value * TotalQuantity(Selection(ps, right, side)) == StrikeTotal(Selection(ps, right, side))
  {
    SelectionWeightIffQualifying(ps, right, side);
    Average(Selection(ps, right, side))
  }

  /** The weighted-average strike of the short positions of one right. */
  function WeightedAvgShortStrike(ps: seq<PortfolioItem>, right: Right): (r: Result<real, AnalyticsError>)
    ensures r.Failure? <==> forall i :: 0 <= i < |ps| ==>
      !(ps[i].contract.OptionContract? && ps[i].contract.right == right && ps[i].position < 0.0)
    ensures r.Failure? ==> r.error == NoQualifyingPositions
    ensures r.Success? ==>
      r.value * TotalQuantity(Selection(ps, right, Short)) == StrikeTotal(Selection(ps, right, Short))
  {
    WeightedAvgStrike(ps, right, Short)
  }

  /** The weighted-average strike of the long positions of one right. */
  function WeightedAvgLongStrike(ps: seq<PortfolioItem>, right: Right): (r: Result<real, AnalyticsError>)
    ensures r.Failure? <==> forall i :: 0 <= i < |ps| ==>
      !(ps[i].contract.OptionContract? && ps[i].contract.right == right && ps[i].position > 0.0)
    ensures r.Failure? ==> r.error == NoQualifyingPositions
    ensures r.Success? ==>
      r.value * TotalQuantity(Selection(ps, right, Long)) == StrikeTotal(Selection(ps, right, Long))
  {
    WeightedAvgStrike(ps, right, Long)
  }

  /** Legs whose strikes are all at least lo, with non-negative weights, have a
      strike total of at least lo times their total weight. */
  lemma {:induction false} StrikeTotalAtLeast(ls: seq<Leg>, lo: real)
    requires forall j :: 0 <= j < |ls| ==> lo <= ls[j].strike && ls[j].quantity >= 0.0
    ensures lo * TotalQuantity(ls) <= StrikeTotal(ls)
  {
    if |ls| > 0 {
      var init, last := ls[..|ls| - 1], ls[|ls| - 1];
      assert forall j :: 0 <= j < |init| ==> init[j] == ls[j];
      StrikeTotalAtLeast(init, lo);
      ScaleMonotone(lo, last.strike, last.quantity);
      Distribute(lo, TotalQuantity(init), last.quantity);
      assert TotalQuantity(ls) == TotalQuantity(init) + last.quantity;
      assert StrikeTotal(ls) == StrikeTotal(init) + last.strike * last.quantity;
    }
  }

  /** Legs whose strikes are all at most hi, with non-negative weights, have a
      strike total of at most hi times their total weight. */
  lemma {:induction false} StrikeTotalAtMost(ls: seq<Leg>, hi: real)
    requires forall j :: 0 <= j < |ls| ==> ls[j].strike <= hi && ls[j].quantity >= 0.0
    ensures StrikeTotal(ls) <= hi * TotalQuantity(ls)
  {
    if |ls| > 0 {
      var init, last := ls[..|ls| - 1], ls[|ls| - 1];
      assert forall j :: 0 <= j < |init| ==> init[j] == ls[j];
      StrikeTotalAtMost(init, hi);
      ScaleMonotone(last.strike, hi, last.quantity);
      Distribute(hi, TotalQuantity(init), last.quantity);
      assert TotalQuantity(ls) == TotalQuantity(init) + last.quantity;
      assert StrikeTotal(ls) == StrikeTotal(init) + last.strike * last.quantity;
    }
  }

  lemma Distribute(k: real, a: real, b: real)
    ensures k * (a + b) == k * a + k * b
  {
  }

  lemma ScaleMonotone(a: real, b: real, c: real)
    requires a <= b && c >= 0.0
    ensures a * c <= b * c
  {
    assert (b - a) * c >= 0.0;
  }

  lemma NonNegativeFactor(x: real, w: real)
    requires w > 0.0 && x * w >= 0.0
    ensures x >= 0.0
  {
    if x < 0.0 {
      PositiveProduct(-x, w);
    }
  }

  /** The average of legs is at least the least of their strikes. */
  lemma AverageAtLeast(ls: seq<Leg>, lo: real)
    requires forall j :: 0 <= j < |ls| ==> lo <= ls[j].strike && ls[j].quantity >= 0.0
    ensures Average(ls).Success? ==> lo <= Average(ls).value
  {
    var r := Average(ls);
    if r.Success? {
      StrikeTotalAtLeast(ls, lo);
      TotalQuantityNonNegative(ls);
      var q := TotalQuantity(ls);
      assert (r.value - lo) * q == r.value * q - lo * q;
      NonNegativeFactor(r.value - lo, q);
    }
  }

  /** The average of legs is at most the greatest of their strikes. */
  lemma AverageAtMost(ls: seq<Leg>, hi: real)
    requires forall j :: 0 <= j < |ls| ==> ls[j].strike <= hi && ls[j].quantity >= 0.0
    ensures Average(ls).Success? ==> Average(ls).value <= hi
  {
    var r := Average(ls);
    if r.Success? {
      StrikeTotalAtMost(ls, hi);
      TotalQuantityNonNegative(ls);
      var q := TotalQuantity(ls);
      assert (hi - r.value) * q == hi * q - r.value * q;
      NonNegativeFactor(hi - r.value, q);
    }
  }

  /** A weighted average is at least the least strike it averages. */
  lemma WeightedAvgAtLeast(ps: seq<PortfolioItem>, right: Right, side: Side, lo: real)
    requires forall i :: 0 <= i < |ps| && Qualifies(ps[i], right, side) ==> lo <= ps[i].contract.strike
    ensures WeightedAvgStrike(ps, right, side).Success? ==> lo <= WeightedAvgStrike(ps, right, side).value
  {
    var ls := Selection(ps, right, side);
    SelectionMembers(ps, right, side);
    forall j | 0 <= j < |ls|
      ensures lo <= ls[j].strike && ls[j].quantity >= 0.0
    {
      assert ls[j] in ls;
    }
    AverageAtLeast(ls, lo);
  }

  /** A weighted average is at most the greatest strike it averages. */
  lemma WeightedAvgAtMost(ps: seq<PortfolioItem>, right: Right, side: Side, hi: real)
    requires forall i :: 0 <= i < |ps| && Qualifies(ps[i], right, side) ==> ps[i].contract.strike <= hi
    ensures WeightedAvgStrike(ps, right, side).Success? ==> WeightedAvgStrike(ps, right, side).value <= hi
  {
    var ls := Selection(ps, right, side);
    SelectionMembers(ps, right, side);
    forall j | 0 <= j < |ls|
      ensures ls[j].strike <= hi && ls[j].quantity >= 0.0
    {
      assert ls[j] in ls;
    }
    AverageAtMost(ls, hi);
  }

  /** A weighted average lies between the least and the greatest strike it
      averages. */
  lemma WeightedAvgWithinStrikeRange(ps: seq<PortfolioItem>, right: Right, side: Side, lo: real, hi: real)
    requires forall i :: 0 <= i < |ps| && Qualifies(ps[i], right, side) ==>
      lo <= ps[i].contract.strike <= hi
    ensures WeightedAvgStrike(ps, right, side).Success? ==>
      lo <= WeightedAvgStrike(ps, right, side).value <= hi
  {
    WeightedAvgAtLeast(ps, right, side, lo);
    WeightedAvgAtMost(ps, right, side, hi);
  }

  /** When every qualifying position has the same strike, that strike is the
      average; in particular a single qualifying position gives its own strike,
      whatever non-qualifying positions surround it. */
  lemma WeightedAvgOfOneStrike(ps: seq<PortfolioItem>, right: Right, side: Side, strike: real)
    requires exists i :: 0 <= i < |ps| && Qualifies(ps[i], right, side)
    requires forall i :: 0 <= i < |ps| && Qualifies(ps[i], right, side) ==>
      ps[i].contract.strike == strike
    ensures WeightedAvgStrike(ps, right, side) == Success(strike)
  {
    WeightedAvgWithinStrikeRange(ps, right, side, strike, strike);
  }

  /** A position of the other right or of the other sign is filtered out: it may
      sit anywhere in the list without changing the average. */
  lemma NonQualifyingIgnored(a: seq<PortfolioItem>, p: PortfolioItem, b: seq<PortfolioItem>, right: Right, side: Side)
    requires !Qualifies(p, right, side)
    ensures WeightedAvgStrike(a + [p] + b, right, side) == WeightedAvgStrike(a + b, right, side)
  {
    SelectionSkipsNonQualifying(a, p, b, right, side);
  }

  /** The selection passes over a position that does not qualify. */
  lemma SelectionSkipsNonQualifying(a: seq<PortfolioItem>, p: PortfolioItem, b: seq<PortfolioItem>, right: Right, side: Side)
    requires !Qualifies(p, right, side)
    ensures Selection(a + [p] + b, right, side) == Selection(a + b, right, side)
  {
    SelectionConcat(a, [p], right, side);
    SelectionConcat(a + [p], b, right, side);
    SelectionConcat(a, b, right, side);
    assert [p][..0] == [];
    assert Selection([p], right, side) == [];
  }

  // ---------------------------------------------------------------------------
  // Order pricing guard
  // ---------------------------------------------------------------------------

  /** How far a limit price reaches toward the other side of the market: a buyer
      reaches further by bidding more, a seller by asking less. */
  function Aggressiveness(action: Action, price: real): real {
    match action
    case Buy => price
    case Sell => -price
  }

  /** Whether moving the order's limit to `updated` would pull it back from the
      market, widening the spread it has to cross. */
  function WouldIncreaseSpread(order: Order, updated: real): (r: bool)
    ensures r <==> Aggressiveness(order.action, updated) < Aggressiveness(order.action, order.lmtPrice)
  {
    match order.action
    case Buy => updated < order.lmtPrice
    case Sell => updated > order.lmtPrice
  }

  /** A buy at a price behaves as a sell at the negated price, as for the two
      legs of a combo order. */
  lemma SpreadGuardBuySellMirror(lmt: real, updated: real)
    ensures WouldIncreaseSpread(Order(Buy, lmt), updated)
        == WouldIncreaseSpread(Order(Sell, -lmt), -updated)
  {
  }

  /** Leaving the price unchanged never increases the spread, and a move that
      increases it is undone by moving back. */
  lemma SpreadGuardStrictAndReversible(action: Action, lmt: real, updated: real)
    ensures !WouldIncreaseSpread(Order(action, lmt), lmt)
    ensures WouldIncreaseSpread(Order(action, lmt), updated) ==>
      !WouldIncreaseSpread(Order(action, updated), lmt)
  {
  }

  /** For any real move of the price, exactly one side sees its spread increase. */
  lemma SpreadGuardSidesDisagree(lmt: real, updated: real)
    requires updated != lmt
    ensures WouldIncreaseSpread(Order(Buy, lmt), updated) != WouldIncreaseSpread(Order(Sell, lmt), updated)
  {
  }
}
