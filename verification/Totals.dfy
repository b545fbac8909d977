/** Sums over a book of positions, and how one change moves them. */
module Totals {
  import opened Options
  import opened Positions
  import opened Broker

  function Total(f: Position -> real, ps: seq<Position>): real {
    if ps == [] then 0.0 else f(ps[0]) + Total(f, ps[1..])
  }

  lemma {:induction false} TotalOfJoin(f: Position -> real, a: seq<Position>, b: seq<Position>)
    ensures Total(f, a + b) == Total(f, a) + Total(f, b)
  {
    if a == [] {
      assert a + b == b;
    } else {
      TotalOfJoin(f, a[1..], b);
      assert (a + b)[1..] == a[1..] + b;
    }
  }

  lemma TotalOfAppend(f: Position -> real, ps: seq<Position>, p: Position)
    ensures Total(f, ps + [p]) == Total(f, ps) + f(p)
  {
    TotalOfJoin(f, ps, [p]);
    assert [p][1..] == [];
  }

  lemma {:induction false} TotalOfUpdate(f: Position -> real, ps: seq<Position>, i: nat, p: Position)
    requires i < |ps|
    ensures Total(f, ps[i := p]) == Total(f, ps) - f(ps[i]) + f(p)
  {
    if i == 0 {
      assert ps[0 := p][1..] == ps[1..];
    } else {
      TotalOfUpdate(f, ps[1..], i - 1, p);
      assert ps[i := p][1..] == ps[1..][i - 1 := p];
    }
  }

  lemma {:induction false} TotalsAgree(f: Position -> real, a: seq<Position>, b: seq<Position>)
    requires |a| == |b| && forall i | 0 <= i < |a| :: f(a[i]) == f(b[i])
    ensures Total(f, a) == Total(f, b)
  {
    if a != [] {
      TotalsAgree(f, a[1..], b[1..]);
    }
  }

  lemma {:induction false} TotalIsNonNegative(f: Position -> real, ps: seq<Position>)
    requires forall p | p in ps :: f(p) >= 0.0
    ensures Total(f, ps) >= 0.0
  {
    if ps != [] {
      TotalIsNonNegative(f, ps[1..]);
    }
  }

  lemma {:induction false} TotalIsMonotone(f: Position -> real, g: Position -> real, ps: seq<Position>)
    requires forall p | p in ps :: f(p) <= g(p)
    ensures Total(f, ps) <= Total(g, ps)
  {
    if ps != [] {
      TotalIsMonotone(f, g, ps[1..]);
    }
  }

  /** With distinct identifiers a replacement changes exactly one entry. */
  lemma ReplacedIsUpdate(ps: seq<Position>, i: nat, p: Position)
    requires i < |ps| && UniqueIds(ps) && ps[i].id == p.id
    ensures Replaced(ps, p.id, p) == ps[i := p]
  {
  }

  // ---------------------------------------------------------------- what is summed

  function OpenRisk(p: Position): real { if p.IsOpen() then p.TotalMaxLoss() else 0.0 }

  /** Maximum loss of an open position without its entry costs. */
  function OpenLoss(p: Position): real { if p.IsOpen() then p.maxLossPerContract * p.contracts as real else 0.0 }

  /** Risk of the open positions whose nearest expiration is `expiry`. */
  function NearRisk(expiry: Instant): Position -> real {
    (p: Position) => if NearExpiry(p.strategy) == expiry then OpenRisk(p) else 0.0
  }

  predicate HasLegAt(s: Strategy, expiry: Instant) { exists l :: l in s.legs && l.expiry == expiry }

  /** Risk of the open positions that expire first at another instant and have a leg at `expiry`. */
  function LaterLegRisk(expiry: Instant): Position -> real {
    (p: Position) => if NearExpiry(p.strategy) != expiry && HasLegAt(p.strategy, expiry) then OpenRisk(p) else 0.0
  }

  function OpenUnit(p: Position): real { if p.IsOpen() then 1.0 else 0.0 }

  function EntryFee(p: Position): real { p.entryCommission }

  function ClosedPnl(p: Position): real { if p.IsOpen() then 0.0 else p.realizedPnl }

  lemma {:induction false} TotalOpenRiskIsTotal(ps: seq<Position>)
    ensures TotalOpenRisk(ps) == Total(OpenRisk, ps)
  {
    if ps != [] {
      TotalOpenRiskIsTotal(ps[1..]);
    }
  }

  /** What is counted under an expiration is what expires first there and what has a later leg there. */
  lemma {:induction false} ExpirationRiskSplits(ps: seq<Position>, expiry: Instant)
    requires forall p | p in ps :: OpenRisk(p) >= 0.0
    ensures RiskForExpiration(ps, expiry) == Total(NearRisk(expiry), ps) + Total(LaterLegRisk(expiry), ps)
    ensures Total(NearRisk(expiry), ps) >= 0.0 && Total(LaterLegRisk(expiry), ps) >= 0.0
    ensures RiskForExpiration(ps, expiry) <= TotalOpenRisk(ps)
    ensures (forall p | p in ps && p.IsOpen() :: !IsMultiExpiry(p.strategy)) ==> Total(LaterLegRisk(expiry), ps) == 0.0
  {
    if ps != [] {
      ExpirationRiskSplits(ps[1..], expiry);
      NearExpiryIsALeg(ps[0].strategy, expiry);
      assert OpenRisk(ps[0]) >= 0.0;
      hide NearExpiry, IsMultiExpiry, Position.TotalMaxLoss;
    }
  }

  lemma NearExpiryIsALeg(s: Strategy, expiry: Instant)
    ensures NearExpiry(s) == expiry ==> HasLegAt(s, expiry)
    ensures !IsMultiExpiry(s) && HasLegAt(s, expiry) ==> NearExpiry(s) == expiry
  {
    var es := Expiries(s.legs);
    assert es[0] in es;
  }

  lemma {:induction false} OpenCountIsTotal(ps: seq<Position>)
    ensures OpenCount(ps) as real == Total(OpenUnit, ps)
  {
    if ps != [] {
      OpenCountIsTotal(ps[1..]);
    }
  }

  // ---------------------------------------------------------------- fills

  /** Contracts filled under one order. */
  function FilledUnder(fills: seq<Fill>, id: Id): int {
    if fills == [] then 0
    else
      var f := fills[|fills| - 1];
      FilledUnder(fills[..|fills| - 1], id) + if f.orderId == id then f.contracts else 0
  }

  /** Commissions of the fills of opening orders. */
  function OpenCommissions(fills: seq<Fill>, orders: map<Id, Order>): real {
    if fills == [] then 0.0
    else
      var f := fills[|fills| - 1];
      OpenCommissions(fills[..|fills| - 1], orders)
      + if f.orderId in orders && orders[f.orderId].intent.OpenIntent? then f.commission else 0.0
  }

  lemma OpenCommissionsOfAppend(fills: seq<Fill>, f: Fill, orders: map<Id, Order>)
    ensures OpenCommissions(fills + [f], orders) == OpenCommissions(fills, orders)
            + if f.orderId in orders && orders[f.orderId].intent.OpenIntent? then f.commission else 0.0
  {
    assert (fills + [f])[..|fills|] == fills;
  }

  lemma FilledUnderOfAppend(fills: seq<Fill>, f: Fill, id: Id)
    ensures FilledUnder(fills + [f], id) == FilledUnder(fills, id) + if f.orderId == id then f.contracts else 0
  {
    assert (fills + [f])[..|fills|] == fills;
  }

  lemma {:induction false} NothingFilledUnder(fills: seq<Fill>, id: Id)
    requires forall f | f in fills :: f.orderId != id
    ensures FilledUnder(fills, id) == 0
  {
    if fills != [] {
      NothingFilledUnder(fills[..|fills| - 1], id);
    }
  }

  /** Orders come and go without changing what was charged, as long as intents stay. */
  lemma {:induction false} CommissionsFollowIntents(fills: seq<Fill>, a: map<Id, Order>, b: map<Id, Order>)
    requires forall f | f in fills :: f.orderId in a && f.orderId in b && a[f.orderId].intent == b[f.orderId].intent
    ensures OpenCommissions(fills, a) == OpenCommissions(fills, b)
  {
    if fills != [] {
      CommissionsFollowIntents(fills[..|fills| - 1], a, b);
    }
  }

  /** Slippage against the midpoint of the fills of opening orders. */
  function OpenSlips(fills: seq<Fill>, orders: map<Id, Order>): seq<real> {
    if fills == [] then []
    else
      var f := fills[|fills| - 1];
      OpenSlips(fills[..|fills| - 1], orders)
      + if f.orderId in orders && orders[f.orderId].intent.OpenIntent? then [f.slippageVsMid] else []
  }

  lemma OpenSlipsOfAppend(fills: seq<Fill>, f: Fill, orders: map<Id, Order>)
    ensures OpenSlips(fills + [f], orders) == OpenSlips(fills, orders)
            + if f.orderId in orders && orders[f.orderId].intent.OpenIntent? then [f.slippageVsMid] else []
  {
    assert (fills + [f])[..|fills|] == fills;
  }

  lemma {:induction false} SlipsFollowIntents(fills: seq<Fill>, a: map<Id, Order>, b: map<Id, Order>)
    requires forall f | f in fills :: f.orderId in a && f.orderId in b && a[f.orderId].intent == b[f.orderId].intent
    ensures OpenSlips(fills, a) == OpenSlips(fills, b)
  {
    if fills != [] {
      SlipsFollowIntents(fills[..|fills| - 1], a, b);
    }
  }
}
