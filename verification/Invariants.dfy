/** What every step of the desk keeps. */
module Invariants {
  import opened Options
  import opened Market
  import opened Costs
  import opened Positions
  import opened Broker
  import opened Risk
  import opened Trading
  import opened Totals
  import opened Vectors

  // ---------------------------------------------------------------- the invariant

  ghost predicate GoodTerms(p: Position) {
    p.contracts >= 1 && p.maxLossPerContract > 0.0 && p.entryCommission >= 0.0
  }

  /** The portfolio and the broker hold the same positions under distinct identifiers. */
  ghost predicate Books(d: Desk) {
    && Matched(d.portfolio, d.book.positions)
    && UniqueIds(d.portfolio)
    && (forall p | p in d.portfolio :: p.id < d.nextId && GoodTerms(p))
  }

  /** An order's filled contracts are the sum of its fills, within the order, and it is terminal or has
      filled something when the poll limit exceeds the reprice budget. */
  ghost predicate OrderAddsUp(b: Book, id: Id, cfg: DeskConfig)
    requires id in b.orders
  {
    var o := b.orders[id];
    && o.id == id && 0 <= o.filled <= o.contracts && o.filled == FilledUnder(b.fills, id)
    && (cfg.maxPolls > cfg.broker.maxRepriceAttempts ==> o.IsTerminal() || o.filled >= 1)
  }

  ghost predicate Orders(d: Desk, cfg: DeskConfig) {
    && (forall id | id in d.book.orders :: id < d.nextId && OrderAddsUp(d.book, id, cfg))
    && (forall f | f in d.book.fills :: f.orderId in d.book.orders)
  }

  function ChargedToOpen(b: Book): real { OpenCommissions(b.fills, b.orders) }

  /** What a process starts from: equity, commissions already paid for the positions it inherits, and
      the session record. */
  datatype Baseline = Baseline(equity: real, fees: real, session: SessionRecord)

  /** Equity is the start, less the commissions of opening fills, plus the settled results. */
  ghost predicate Ledger(d: Desk, base: Baseline) {
    d.book.equity == base.equity - ChargedToOpen(d.book) + Total(ClosedPnl, d.portfolio)
  }

  /** Every opening fill became a position, and every position not inherited came from one. */
  ghost predicate FeesMatch(d: Desk, base: Baseline) {
    ChargedToOpen(d.book) + base.fees == Total(EntryFee, d.portfolio)
  }

  /** The session record is the replay of its log, and the trades logged are the settled results. */
  ghost predicate SessionAddsUp(d: Desk, base: Baseline) {
    && d.session == ReplayFrom(base.session, d.log)
    && PnlSum(TradesOf(d.log)) == Total(ClosedPnl, d.portfolio)
  }

  /** A total of open risk is within the cap, but for the entry commission of one position it counts. */
  ghost predicate WithinOneFee(f: Position -> real, ps: seq<Position>, cap: real) {
    || Total(f, ps) <= cap
    || exists i :: 0 <= i < |ps| && Excuses(f, ps, i, cap)
  }

  ghost predicate Excuses(f: Position -> real, ps: seq<Position>, i: nat, cap: real)
    requires i < |ps|
  {
    ps[i].IsOpen() && f(ps[i]) >= ps[i].entryCommission && Total(f, ps) - ps[i].entryCommission <= cap
  }

  /** The most that further contracts can add once the first one has passed the same-expiration check. */
  function Slack(limits: TradeLimits): real {
    if limits.maxContracts <= 1 then 0.0
    else Product((limits.maxContracts - 1) as real / limits.maxContracts as real, Max(0.0, limits.maxDollarRisk))
  }

  function ExpirationCap(cfg: RiskConfig): real { Max(0.0, cfg.portfolio.maxSameExpirationRisk) + Slack(cfg.trade) }

  ghost predicate ExpirationsCapped(ps: seq<Position>, cfg: RiskConfig) {
    forall expiry: Instant :: WithinOneFee(NearRisk(expiry), ps, ExpirationCap(cfg))
  }

  ghost predicate Exposure(ps: seq<Position>, cfg: RiskConfig) {
    && Total(OpenUnit, ps) <= Max(0.0, cfg.portfolio.maxOpenStrategies as real)
    && Total(OpenLoss, ps) <= Max(0.0, cfg.portfolio.maxTotalOpenRisk)
    && WithinOneFee(OpenRisk, ps, Max(0.0, cfg.portfolio.maxTotalOpenRisk))
    && ExpirationsCapped(ps, cfg)
  }

  ghost predicate SoundButFees(d: Desk, base: Baseline, cfg: DeskConfig) {
    Books(d) && Orders(d, cfg) && Ledger(d, base) && SessionAddsUp(d, base) && Exposure(d.portfolio, cfg.risk)
  }

  ghost predicate SoundButSlips(d: Desk, base: Baseline, cfg: DeskConfig) {
    SoundButFees(d, base, cfg) && FeesMatch(d, base)
  }

  function SlipsOnBook(b: Book): seq<real> { OpenSlips(b.fills, b.orders) }

  /** The samples recorded are the slippage of the opening fills, one each and in order. */
  ghost predicate SlipsMatch(d: Desk) { SlipsOnBook(d.book) == Outcomes(SlipsOf(d.log)) }

  ghost predicate Sound(d: Desk, base: Baseline, cfg: DeskConfig) { SoundButSlips(d, base, cfg) && SlipsMatch(d) }

  /** Terms never change after entry and a closed position never changes at all. */
  ghost predicate Evolves(a: seq<Position>, b: seq<Position>) {
    |a| <= |b| && forall i | 0 <= i < |a| :: a[i].SameTerms(b[i]) && (a[i].IsOpen() || b[i] == a[i])
  }

  /** History is only ever added to. */
  ghost predicate Extends(a: Desk, b: Desk) {
    && a.nextId <= b.nextId
    && Evolves(a.portfolio, b.portfolio)
    && (forall id | id in a.book.orders :: id in b.book.orders && b.book.orders[id] == a.book.orders[id])
    && a.book.fills <= b.book.fills
    && a.log <= b.log
  }

  lemma ExtendsIsTransitive(a: Desk, b: Desk, c: Desk)
    requires Extends(a, b) && Extends(b, c)
    ensures Extends(a, c)
  {
    forall i | 0 <= i < |a.portfolio|
      ensures a.portfolio[i].SameTerms(c.portfolio[i]) && (a.portfolio[i].IsOpen() || c.portfolio[i] == a.portfolio[i])
    {
      assert a.portfolio[i].SameTerms(b.portfolio[i]) && b.portfolio[i].SameTerms(c.portfolio[i]);
    }
  }

  // ---------------------------------------------------------------- replacing one position

  /** `p` is the same position as entry `i`, which is open. */
  ghost predicate Successor(ps: seq<Position>, i: nat, p: Position) {
    i < |ps| && ps[i].IsOpen() && ps[i].SameTerms(p)
  }

  lemma UpdateKeepsIdentity(ps: seq<Position>, i: nat, p: Position)
    requires UniqueIds(ps) && Successor(ps, i, p)
    ensures Replaced(ps, p.id, p) == ps[i := p] && UniqueIds(ps[i := p]) && Evolves(ps, ps[i := p])
    ensures forall q | q in ps[i := p] :: q == p || q in ps
  {
    ReplacedIsUpdate(ps, i, p);
  }

  lemma SameTermsMeasureAlike(a: Position, b: Position)
    requires a.SameTerms(b) && a.IsOpen() && b.IsOpen()
    ensures OpenRisk(a) == OpenRisk(b) && OpenLoss(a) == OpenLoss(b) && OpenUnit(a) == OpenUnit(b)
    ensures EntryFee(a) == EntryFee(b) && ClosedPnl(a) == ClosedPnl(b)
  {
  }

  /** Marking an open position changes no total. */
  lemma MarkKeepsTotals(ps: seq<Position>, i: nat, p: Position)
    requires Successor(ps, i, p) && p.IsOpen()
    ensures Total(OpenRisk, ps[i := p]) == Total(OpenRisk, ps) && Total(OpenLoss, ps[i := p]) == Total(OpenLoss, ps)
    ensures Total(OpenUnit, ps[i := p]) == Total(OpenUnit, ps) && Total(EntryFee, ps[i := p]) == Total(EntryFee, ps)
    ensures Total(ClosedPnl, ps[i := p]) == Total(ClosedPnl, ps)
  {
    SameTermsMeasureAlike(ps[i], p);
    hide Total, OpenRisk, OpenLoss, OpenUnit, EntryFee, ClosedPnl;
    TotalOfUpdate(OpenRisk, ps, i, p);
    TotalOfUpdate(OpenLoss, ps, i, p);
    TotalOfUpdate(OpenUnit, ps, i, p);
    TotalOfUpdate(EntryFee, ps, i, p);
    TotalOfUpdate(ClosedPnl, ps, i, p);
  }

  lemma MarkKeepsWithin(f: Position -> real, ps: seq<Position>, i: nat, p: Position, cap: real)
    requires Successor(ps, i, p) && p.IsOpen() && f(p) == f(ps[i]) && WithinOneFee(f, ps, cap)
    ensures WithinOneFee(f, ps[i := p], cap)
  {
    hide Total;
    var next := ps[i := p];
    TotalOfUpdate(f, ps, i, p);
    if Total(f, ps) > cap {
      var j :| 0 <= j < |ps| && Excuses(f, ps, j, cap);
      assert Excuses(f, next, j, cap);
    }
  }

  lemma MarkKeepsExposure(ps: seq<Position>, i: nat, p: Position, cfg: RiskConfig)
    requires Exposure(ps, cfg) && Successor(ps, i, p) && p.IsOpen()
    ensures Exposure(ps[i := p], cfg)
  {
    MarkKeepsTotals(ps, i, p);
    SameTermsMeasureAlike(ps[i], p);
    hide Total, WithinOneFee, OpenRisk, OpenLoss, OpenUnit, Excuses, ExpirationCap;
    MarkKeepsWithin(OpenRisk, ps, i, p, Max(0.0, cfg.portfolio.maxTotalOpenRisk));
    forall expiry: Instant ensures WithinOneFee(NearRisk(expiry), ps[i := p], ExpirationCap(cfg)) {
      MarkKeepsWithin(NearRisk(expiry), ps, i, p, ExpirationCap(cfg));
    }
  }

  lemma RemarkKeeps(d: Desk, i: nat, p: Position, base: Baseline, cfg: DeskConfig)
    requires Sound(d, base, cfg) && Successor(d.portfolio, i, p) && p.IsOpen()
    ensures Remark(d, p).portfolio == d.portfolio[i := p]
    ensures Sound(Remark(d, p), base, cfg) && Extends(d, Remark(d, p))
  {
    hide Total, OrderAddsUp, OpenCommissions, ReplayFrom, TradesOf, PnlSum, Exposure;
    UpdateKeepsIdentity(d.portfolio, i, p);
    MarkKeepsTotals(d.portfolio, i, p);
    MarkKeepsExposure(d.portfolio, i, p, cfg.risk);
  }

  // ---------------------------------------------------------------- closing one position

  lemma CloseKeepsWithin(f: Position -> real, ps: seq<Position>, i: nat, p: Position, cap: real)
    requires Successor(ps, i, p) && !p.IsOpen() && f(p) == 0.0 && f(ps[i]) >= 0.0 && WithinOneFee(f, ps, cap)
    ensures WithinOneFee(f, ps[i := p], cap)
  {
    hide Total;
    var next := ps[i := p];
    TotalOfUpdate(f, ps, i, p);
    if Total(f, ps) > cap {
      var j :| 0 <= j < |ps| && Excuses(f, ps, j, cap);
      if j != i {
        assert Excuses(f, next, j, cap);
      }
    }
  }

  lemma OpenRiskIsPositive(p: Position)
    requires GoodTerms(p)
    ensures 0.0 <= OpenLoss(p) && OpenLoss(p) + p.entryCommission >= OpenRisk(p) >= OpenLoss(p)
    ensures p.IsOpen() ==> OpenRisk(p) == OpenLoss(p) + p.entryCommission
  {
    ProductNonNegative(p.maxLossPerContract, p.contracts as real);
  }

  lemma CloseLowersExposure(ps: seq<Position>, i: nat, p: Position, cfg: RiskConfig)
    requires Exposure(ps, cfg) && Successor(ps, i, p) && !p.IsOpen()
    requires forall q | q in ps :: GoodTerms(q)
    ensures Exposure(ps[i := p], cfg)
  {
    var next := ps[i := p];
    OpenRiskIsPositive(ps[i]);
    assert OpenRisk(p) == 0.0 && OpenLoss(p) == 0.0 && OpenUnit(p) == 0.0 && OpenUnit(ps[i]) == 1.0;
    hide Total, WithinOneFee, OpenRisk, OpenLoss, OpenUnit, ExpirationCap;
    TotalOfUpdate(OpenLoss, ps, i, p);
    TotalOfUpdate(OpenUnit, ps, i, p);
    CloseKeepsWithin(OpenRisk, ps, i, p, Max(0.0, cfg.portfolio.maxTotalOpenRisk));
    forall expiry: Instant ensures WithinOneFee(NearRisk(expiry), next, ExpirationCap(cfg)) {
      CloseKeepsWithin(NearRisk(expiry), ps, i, p, ExpirationCap(cfg));
    }
  }

  lemma SettleKeeps(d: Desk, i: nat, p: Position, base: Baseline, cfg: DeskConfig)
    requires Sound(d, base, cfg) && Successor(d.portfolio, i, p) && !p.IsOpen()
    ensures Settle(d, p).portfolio == d.portfolio[i := p]
    ensures Sound(Settle(d, p), base, cfg) && Extends(d, Settle(d, p))
  {
    hide Total, FilledUnder, OpenCommissions, ReplayFrom, TradesOf, PnlSum, Exposure;
    var next := Settle(d, p);
    UpdateKeepsIdentity(d.portfolio, i, p);
    SettleKeepsBooks(d, i, p);
    CloseLowersExposure(d.portfolio, i, p, cfg.risk);
    TotalOfUpdate(ClosedPnl, d.portfolio, i, p);
    TotalOfUpdate(EntryFee, d.portfolio, i, p);
    TradeExtendsLog(base.session, d.session, d.log, p.realizedPnl, next.book.equity);
  }

  lemma SettleKeepsBooks(d: Desk, i: nat, p: Position)
    requires Books(d) && Successor(d.portfolio, i, p) && !p.IsOpen()
    ensures Books(Settle(d, p))
  {
    UpdateKeepsIdentity(d.portfolio, i, p);
    var external := d.book.positions;
    assert external[i].id == p.id;
    assert UniqueIds(external) by {
      forall j, k | 0 <= j < k < |external| ensures external[j].id != external[k].id {
        assert d.portfolio[j].SameTerms(external[j]) && d.portfolio[k].SameTerms(external[k]);
      }
    }
    ReplacedIsUpdate(external, i, p);
  }

  lemma TradeExtendsLog(from: SessionRecord, s: SessionRecord, log: seq<SessionEvent>, pnl: real, equity: real)
    requires s == ReplayFrom(from, log)
    ensures s.WithTrade(pnl, equity) == ReplayFrom(from, log + [Trade(pnl, equity)])
    ensures SlipsOf(log + [Trade(pnl, equity)]) == SlipsOf(log)
    ensures PnlSum(TradesOf(log + [Trade(pnl, equity)])) == PnlSum(TradesOf(log)) + pnl
  {
    var longer := log + [Trade(pnl, equity)];
    assert longer[..|longer| - 1] == log;
    assert SlipsOf(longer) == SlipsOf(log) + [] == SlipsOf(log);
    SumAppends(TradesOf(log), pnl);
  }

  // ---------------------------------------------------------------- working one order

  /** What polling order `o` can have produced. */
  ghost predicate Worked(o: Order, r: Polled) {
    && r.order.id == o.id && r.order.intent == o.intent && r.order.contracts == o.contracts
    && (r.fill.Some? ==> r.fill.value.orderId == o.id && 1 <= r.fill.value.contracts <= o.contracts
                         && r.order.filled == r.fill.value.contracts)
    && (r.fill.None? ==> r.order.filled == 0)
  }

  ghost predicate IsFresh(d: Desk, o: Order) {
    o.id == d.nextId && o.filled == 0 && o.reprices == 0 && o.contracts >= 1
  }

  lemma WorkIsWorked(d: Desk, o: Order, snap: Snapshot, cfg: DeskConfig, draws: Draws)
    requires IsFresh(d, o) && o.status == PendingNew
    ensures var r := Work(o, snap, cfg, draws);
      && Worked(o, r) && r.order.strategy == o.strategy
      && (cfg.maxPolls > cfg.broker.maxRepriceAttempts ==> r.fill.Some? || r.order.IsTerminal())
      && (r.fill.Some? ==> r.fill.value.commission == Commission(o.strategy.legs, cfg.costs, r.fill.value.contracts))
  {
    hide PollLoop, Commission;
    LoopFacts(o.(status := Working), cfg.broker, cfg.costs, snap.chain, DrawsFor(draws, o.id), 0, cfg.maxPolls);
    if cfg.maxPolls > cfg.broker.maxRepriceAttempts {
      LoopAlwaysBreaks(o.(status := Working), cfg.broker, cfg.costs, snap.chain, DrawsFor(draws, o.id), 0,
                       cfg.maxPolls);
    }
  }

  /** Commission an order charges to equity when it fills. */
  function OpenCharge(r: Polled): real {
    if r.fill.Some? && r.order.intent.OpenIntent? then r.fill.value.commission else 0.0
  }

  /** Slippage sample an order owes when it fills. */
  function OpenSlip(r: Polled): seq<real> {
    if r.fill.Some? && r.order.intent.OpenIntent? then [r.fill.value.slippageVsMid] else []
  }

  /** What working one order added to the accounts of opening fills. */
  ghost predicate Charged(d: Desk, next: Desk, r: Polled) {
    && ChargedToOpen(next.book) == ChargedToOpen(d.book) + OpenCharge(r)
    && SlipsOnBook(next.book) == SlipsOnBook(d.book) + OpenSlip(r)
    && next.portfolio == d.portfolio && next.log == d.log && next.session == d.session
  }

  lemma WorkKeeps(d: Desk, o: Order, r: Polled, base: Baseline, cfg: DeskConfig)
    requires Sound(d, base, cfg) && IsFresh(d, o) && Worked(o, r)
    requires cfg.maxPolls > cfg.broker.maxRepriceAttempts ==> r.fill.Some? || r.order.IsTerminal()
    ensures var next := AfterWork(d, o, r);
      && SoundButFees(next, base, cfg) && Extends(d, next) && Charged(d, next, r)
  {
    hide Total, ReplayFrom, TradesOf, PnlSum, Exposure, Matched, UniqueIds;
    WorkKeepsOrders(d, o, r, cfg);
    WorkCharges(d, o, r, cfg);
  }

  lemma WorkCharges(d: Desk, o: Order, r: Polled, cfg: DeskConfig)
    requires Orders(d, cfg) && IsFresh(d, o) && Worked(o, r)
    ensures Charged(d, AfterWork(d, o, r), r)
  {
    hide OpenCommissions, OpenSlips, FilledUnder;
    var next := AfterWork(d, o, r).book;
    CommissionsFollowIntents(d.book.fills, d.book.orders, next.orders);
    SlipsFollowIntents(d.book.fills, d.book.orders, next.orders);
    if r.fill.Some? {
      OpenCommissionsOfAppend(d.book.fills, r.fill.value, next.orders);
      OpenSlipsOfAppend(d.book.fills, r.fill.value, next.orders);
    } else {
      assert SlipsOnBook(d.book) + [] == SlipsOnBook(d.book);
      assert next.fills == d.book.fills;
    }
  }

  lemma WorkKeepsOrders(d: Desk, o: Order, r: Polled, cfg: DeskConfig)
    requires Orders(d, cfg) && IsFresh(d, o) && Worked(o, r)
    requires cfg.maxPolls > cfg.broker.maxRepriceAttempts ==> r.fill.Some? || r.order.IsTerminal()
    ensures Orders(AfterWork(d, o, r), cfg)
  {
    hide FilledUnder;
    var next := AfterWork(d, o, r);
    assert next.book.fills == d.book.fills + (if r.fill.Some? then [r.fill.value] else []);
    NothingFilledUnder(d.book.fills, o.id);
    forall id | id in next.book.orders ensures id < next.nextId && OrderAddsUp(next.book, id, cfg) {
      assert id != o.id ==>
        id in d.book.orders && next.book.orders[id] == d.book.orders[id] && OrderAddsUp(d.book, id, cfg);
      if r.fill.Some? {
        FilledUnderOfAppend(d.book.fills, r.fill.value, id);
      } else {
        assert next.book.fills == d.book.fills;
      }
    }
  }

  // ---------------------------------------------------------------- one close

  lemma ClosePositionKeeps(d: Desk, i: nat, p: Position, snap: Snapshot, reason: ExitReason, cfg: DeskConfig,
      draws: Draws, base: Baseline)
    requires Sound(d, base, cfg) && Successor(d.portfolio, i, p) && p.IsOpen()
    ensures var c := ClosePosition(d, p, snap, reason, cfg, draws);
      && Sound(c.desk, base, cfg) && Extends(d, c.desk) && c.desk.switches == d.switches
      && |c.desk.portfolio| == |d.portfolio|
      && (forall j | 0 <= j < |d.portfolio| && j != i :: c.desk.portfolio[j] == d.portfolio[j])
      && (if c.Closed? then !c.desk.portfolio[i].IsOpen() else c.desk.portfolio == d.portfolio)
  {
    hide ClosePrice, Work, BookedPnl, Sound, SoundButFees, Extends;
    SoundParts(d, base, cfg);
    assert GoodTerms(d.portfolio[i]);
    var price := ClosePrice(p, snap, cfg.manager);
    ExtendsItself(d);
    if price.Some? {
      var o := CloseOrder(p, price.value, d.nextId);
      if !CanSubmit(d.book, o) {
        BumpKeeps(d, base, cfg);
      } else {
        var r := Work(o, snap, cfg, draws);
        WorkIsWorked(d, o, snap, cfg, draws);
        WorkKeeps(d, o, r, base, cfg);
        WorkTouchesTheBook(d, o, r);
        hide AfterWork;
        FeesStay(d, AfterWork(d, o, r), r, base, cfg);
        if r.fill.Some? {
          var closed := p.Closed(snap.timestamp, BookedPnl(p, r), reason);
          FilledCloseKeeps(d, AfterWork(d, o, r), i, closed, base, cfg);
        }
      }
    }
  }

  lemma WorkTouchesTheBook(d: Desk, o: Order, r: Polled)
    ensures var next := AfterWork(d, o, r); next.portfolio == d.portfolio && next.switches == d.switches
  {
  }

  lemma FilledCloseKeeps(d: Desk, worked: Desk, i: nat, p: Position, base: Baseline, cfg: DeskConfig)
    requires Sound(worked, base, cfg) && Extends(d, worked) && worked.portfolio == d.portfolio
    requires worked.switches == d.switches
    requires Successor(d.portfolio, i, p) && !p.IsOpen()
    ensures var next := Settle(worked, p);
      && Sound(next, base, cfg) && Extends(d, next) && next.switches == d.switches && |next.portfolio| == |d.portfolio|
      && (forall j | 0 <= j < |d.portfolio| && j != i :: next.portfolio[j] == d.portfolio[j])
      && !next.portfolio[i].IsOpen()
  {
    hide Sound, Extends;
    SettleKeeps(worked, i, p, base, cfg);
    ExtendsIsTransitive(d, worked, Settle(worked, p));
  }

  lemma SoundParts(d: Desk, base: Baseline, cfg: DeskConfig)
    requires Sound(d, base, cfg)
    ensures SoundButFees(d, base, cfg) && Books(d) && Orders(d, cfg) && FeesMatch(d, base) && SlipsMatch(d)
  {
  }

  lemma ExtendsItself(d: Desk)
    ensures Extends(d, d)
  {
  }

  lemma FeesStay(d: Desk, next: Desk, r: Polled, base: Baseline, cfg: DeskConfig)
    requires Sound(d, base, cfg) && SoundButFees(next, base, cfg) && Charged(d, next, r)
    requires r.fill.None? || !r.order.intent.OpenIntent?
    ensures Sound(next, base, cfg)
  {
    hide SoundButFees, OpenCommissions, OpenSlips, Outcomes;
  }

  /** An identifier drawn and not used. */
  lemma BumpKeeps(d: Desk, base: Baseline, cfg: DeskConfig)
    requires Sound(d, base, cfg)
    ensures var next := d.(nextId := d.nextId + 1); Sound(next, base, cfg) && Extends(d, next)
  {
    hide Total, ReplayFrom, TradesOf, PnlSum, Exposure, OrderAddsUp, OpenCommissions, Matched, UniqueIds;
  }

  // ---------------------------------------------------------------- opening

  /** What an approval grants the order built from it. */
  ghost predicate Granted(d: Desk, c: Candidate, contracts: int, cfg: DeskConfig) {
    && contracts >= 1 && c.maxLoss.Finite? && c.maxLoss.value > 0.0
    && OpenCount(d.portfolio) < cfg.risk.portfolio.maxOpenStrategies
    && contracts <= cfg.risk.trade.maxContracts
    && contracts as real * c.maxLoss.value <= AvailableRisk(d.portfolio, d.book.equity, cfg.risk)
    && contracts as real * c.maxLoss.value <= cfg.risk.trade.maxDollarRisk
    && c.maxLoss.value <= ExpirationRoom(c, d.portfolio, cfg.risk)
  }

  lemma FewerContractsCostLess(n: int, m: int, risk: real)
    requires 1 <= n <= m && risk > 0.0
    ensures 0.0 < risk * n as real <= m as real * risk
  {
    assert (m - n) as real * risk >= 0.0;
  }

  lemma RoomIsUnderCap(cap: real, share: real, used: real, need: real)
    requires 0.0 < need <= Max(0.0, Min(cap, share) - used)
    ensures used + need <= cap
  {
  }

  lemma GrantIsUnderCap(ps: seq<Position>, equity: real, need: real, cfg: RiskConfig)
    requires 0.0 < need <= AvailableRisk(ps, equity, cfg)
    ensures TotalOpenRisk(ps) + need <= cfg.portfolio.maxTotalOpenRisk
  {
    RoomIsUnderCap(cfg.portfolio.maxTotalOpenRisk, equity * cfg.portfolio.maxTotalRiskFraction, TotalOpenRisk(ps),
                   need);
  }

  /** A position that fits but for its commission moves the excess to its own entry commission. */
  lemma AppendKeepsWithin(f: Position -> real, ps: seq<Position>, p: Position, cap: real)
    requires p.IsOpen() && WithinOneFee(f, ps, cap)
    requires f(p) == 0.0 || (f(p) >= p.entryCommission && Total(f, ps) + f(p) - p.entryCommission <= cap)
    ensures WithinOneFee(f, ps + [p], cap)
  {
    hide Total;
    var next := ps + [p];
    TotalOfAppend(f, ps, p);
    if f(p) >= p.entryCommission && Total(f, ps) + f(p) - p.entryCommission <= cap {
      assert Excuses(f, next, |ps|, cap);
    } else if Total(f, ps) > cap {
      var j :| 0 <= j < |ps| && Excuses(f, ps, j, cap);
      assert Excuses(f, next, j, cap);
    }
  }

  lemma ExposureOfAppend(ps: seq<Position>, p: Position, cfg: RiskConfig)
    requires Exposure(ps, cfg) && p.IsOpen() && GoodTerms(p)
    requires Total(OpenLoss, ps) <= Total(OpenRisk, ps)
    requires Total(OpenRisk, ps) + OpenLoss(p) <= cfg.portfolio.maxTotalOpenRisk
    requires Total(NearRisk(NearExpiry(p.strategy)), ps) + OpenLoss(p) <= ExpirationCap(cfg)
    requires Total(OpenUnit, ps) + 1.0 <= cfg.portfolio.maxOpenStrategies as real
    ensures Exposure(ps + [p], cfg)
  {
    OpenRiskIsPositive(p);
    hide Total, OpenRisk, OpenLoss, WithinOneFee, NearExpiry, ExpirationCap;
    TotalOfAppend(OpenLoss, ps, p);
    TotalOfAppend(OpenUnit, ps, p);
    AppendKeepsWithin(OpenRisk, ps, p, Max(0.0, cfg.portfolio.maxTotalOpenRisk));
    forall expiry: Instant ensures WithinOneFee(NearRisk(expiry), ps + [p], ExpirationCap(cfg)) {
      AppendKeepsWithin(NearRisk(expiry), ps, p, ExpirationCap(cfg));
    }
  }

  lemma LossIsWithinRisk(ps: seq<Position>)
    requires forall q | q in ps :: GoodTerms(q)
    ensures Total(OpenLoss, ps) <= Total(OpenRisk, ps)
  {
    hide Total;
    TotalIsMonotone(OpenLoss, OpenRisk, ps);
  }

  /** All contracts but the first risk no more than the slack. */
  lemma FurtherContractsFitSlack(n: int, contracts: int, risk: real, limits: TradeLimits)
    requires 1 <= n <= contracts <= limits.maxContracts && risk > 0.0
    requires Product(contracts as real, risk) <= limits.maxDollarRisk
    ensures Product(n as real, risk) - risk <= Slack(limits)
  {
    hide Product;
    var m, total := limits.maxContracts as real, Product(n as real, risk);
    MoreIsMore(1, n, risk);
    MoreIsMore(n, contracts, risk);
    MoreIsMore(n, limits.maxContracts, risk);
    ProductSigns(1.0, risk);
    if limits.maxContracts > 1 {
      AllButOne(m, total, risk);
      ProductDistributes((m - 1.0) / m, limits.maxDollarRisk, total);
      RatioIsNonNegative(m - 1.0, m);
      ProductSigns((m - 1.0) / m, limits.maxDollarRisk - total);
    }
  }

  lemma MoreIsMore(n: int, m: int, risk: real)
    requires n <= m && risk > 0.0
    ensures Product(n as real, risk) <= Product(m as real, risk)
  {
    hide Product;
    ProductDistributes(risk, m as real, n as real);
    ProductSigns(m as real - n as real, risk);
  }

  lemma RatioIsNonNegative(a: real, b: real)
    requires a >= 0.0 && b > 0.0
    ensures a / b >= 0.0
  {
  }

  /** What a total keeps after its m-th part is taken off, when that part is no more than `risk`. */
  lemma AllButOne(m: real, total: real, risk: real)
    requires m > 0.0 && total <= Product(m, risk)
    ensures total - risk <= Product((m - 1.0) / m, total)
  {
    var part, unit := total / m, 1.0 / m;
    assert Product(m, part) == total && Product(m, unit) == 1.0;
    assert (m - 1.0) / m == 1.0 - unit;
    PartOfTotal(m, unit, part);
    hide Product;
    ProductDistributes(total, 1.0, unit);
    ProductSigns(1.0, total);
    ProductDistributes(m, part, risk);
    ProductSigns(m, part - risk);
  }

  lemma PartOfTotal(m: real, unit: real, part: real)
    requires Product(m, unit) == 1.0
    ensures Product(unit, Product(m, part)) == part
  {
    assert unit * (m * part) == (m * unit) * part;
  }

  lemma GrantFitsExpiration(ps: seq<Position>, c: Candidate, p: Position, contracts: int, cfg: RiskConfig)
    requires forall q | q in ps :: GoodTerms(q)
    requires p.IsOpen() && 1 <= p.contracts <= contracts <= cfg.trade.maxContracts
    requires p.strategy == c.strategy && p.maxLossPerContract > 0.0
    requires contracts as real * p.maxLossPerContract <= cfg.trade.maxDollarRisk
    requires p.maxLossPerContract <= ExpirationRoom(c, ps, cfg)
    ensures Total(NearRisk(NearExpiry(p.strategy)), ps) + OpenLoss(p) <= ExpirationCap(cfg)
  {
    forall q | q in ps ensures OpenRisk(q) >= 0.0 {
      assert GoodTerms(q);
      OpenRiskIsPositive(q);
    }
    GrantFitsSlack(p, contracts, cfg.trade);
    hide Total, OpenLoss, OpenRisk, Slack, RiskForExpiration, NearExpiry;
    ExpirationRiskSplits(ps, NearExpiry(p.strategy));
  }

  lemma GrantFitsSlack(p: Position, contracts: int, limits: TradeLimits)
    requires p.IsOpen() && 1 <= p.contracts <= contracts <= limits.maxContracts && p.maxLossPerContract > 0.0
    requires contracts as real * p.maxLossPerContract <= limits.maxDollarRisk
    ensures OpenLoss(p) - p.maxLossPerContract <= Slack(limits)
  {
    assert OpenLoss(p) == Product(p.contracts as real, p.maxLossPerContract);
    assert Product(contracts as real, p.maxLossPerContract) <= limits.maxDollarRisk;
    hide Product, OpenLoss, Slack;
    FurtherContractsFitSlack(p.contracts, contracts, p.maxLossPerContract, limits);
  }

  lemma GrantCovers(p: Position, contracts: int)
    requires p.IsOpen() && 1 <= p.contracts <= contracts && p.maxLossPerContract > 0.0
    ensures 0.0 < OpenLoss(p) <= contracts as real * p.maxLossPerContract
    ensures p.TotalMaxLoss() == OpenLoss(p) + p.entryCommission
  {
    FewerContractsCostLess(p.contracts, contracts, p.maxLossPerContract);
  }

  /** A position within the granted contracts stays under every cap but for its own entry commission. */
  lemma OpenFitsExposure(d: Desk, c: Candidate, contracts: int, p: Position, cfg: DeskConfig)
    requires Exposure(d.portfolio, cfg.risk) && Granted(d, c, contracts, cfg)
    requires forall q | q in d.portfolio :: GoodTerms(q)
    requires p.IsOpen() && 1 <= p.contracts <= contracts && p.maxLossPerContract == c.maxLoss.value
    requires p.entryCommission >= 0.0
    requires p.strategy == c.strategy
    ensures Exposure(d.portfolio + [p], cfg.risk)
  {
    var need := contracts as real * p.maxLossPerContract;
    GrantCovers(p, contracts);
    hide Total, OpenCount, AvailableRisk, TotalOpenRisk, Exposure, OpenLoss, OpenRisk, ExpirationCap, ExpirationRoom,
      NearExpiry;
    OpenCountIsTotal(d.portfolio);
    TotalOpenRiskIsTotal(d.portfolio);
    LossIsWithinRisk(d.portfolio);
    GrantIsUnderCap(d.portfolio, d.book.equity, need, cfg.risk);
    GrantFitsExpiration(d.portfolio, c, p, contracts, cfg.risk);
    ExposureOfAppend(d.portfolio, p, cfg.risk);
  }

  lemma OpenedKeeps(d: Desk, p: Position, base: Baseline, cfg: DeskConfig)
    requires SoundButFees(d, base, cfg)
    requires ChargedToOpen(d.book) + base.fees == Total(EntryFee, d.portfolio) + p.entryCommission
    requires p.id == d.nextId && p.IsOpen() && GoodTerms(p) && Exposure(d.portfolio + [p], cfg.risk)
    ensures SoundButSlips(Opened(d, p), base, cfg) && Extends(d, Opened(d, p))
    ensures Opened(d, p).log == d.log && SlipsOnBook(Opened(d, p).book) == SlipsOnBook(d.book)
  {
    hide Total, FilledUnder, OpenCommissions, OpenSlips, ReplayFrom, TradesOf, PnlSum, Exposure;
    var next := Opened(d, p);
    TotalOfAppend(EntryFee, d.portfolio, p);
    TotalOfAppend(ClosedPnl, d.portfolio, p);
    forall i | 0 <= i < |d.book.positions| ensures d.book.positions[i].id != p.id {
      assert d.portfolio[i].SameTerms(d.book.positions[i]) && d.portfolio[i] in d.portfolio;
    }
    assert next.book.positions == d.book.positions + [p];
  }

  /** Cancelling an order that took nothing changes no account. */
  lemma WithdrawnKeeps(d: Desk, id: Id, base: Baseline, cfg: DeskConfig)
    requires Sound(d, base, cfg)
    ensures Sound(Withdrawn(d, id), base, cfg)
    ensures forall k | k in d.book.orders && k != id ::
      k in Withdrawn(d, id).book.orders && Withdrawn(d, id).book.orders[k] == d.book.orders[k]
  {
    hide Total, FilledUnder, OpenCommissions, OpenSlips, SlipsOf, Outcomes, ReplayFrom, TradesOf, PnlSum, Exposure,
      Matched, UniqueIds;
    CommissionsFollowIntents(d.book.fills, d.book.orders, Withdrawn(d, id).book.orders);
    SlipsFollowIntents(d.book.fills, d.book.orders, Withdrawn(d, id).book.orders);
  }

  lemma CommissionIsNonNegative(legs: seq<Leg>, costs: CostModel, n: int)
    requires costs.FeePerContract() >= 0.0 && n >= 0
    ensures Commission(legs, costs, n) >= 0.0
  {
    ProductNonNegative(ContractCount(legs) as real, costs.FeePerContract());
    ProductNonNegative(ContractCount(legs) as real * costs.FeePerContract(), n as real);
  }

  lemma SlipExtendsLog(from: SessionRecord, s: SessionRecord, log: seq<SessionEvent>, expected: real, realized: real)
    requires s == ReplayFrom(from, log)
    ensures s.WithSlippage(expected, realized) == ReplayFrom(from, log + [Slip(expected, realized)])
    ensures TradesOf(log + [Slip(expected, realized)]) == TradesOf(log)
    ensures SlipsOf(log + [Slip(expected, realized)]) == SlipsOf(log) + [(expected, realized)]
  {
    var longer := log + [Slip(expected, realized)];
    assert longer[..|longer| - 1] == log;
    assert TradesOf(longer) == TradesOf(log) + [] == TradesOf(log);
  }

  /** Recording the slippage of the one opening fill not yet recorded completes the accounts. */
  lemma RecordedKeeps(d: Desk, expected: real, realized: real, base: Baseline, cfg: DeskConfig)
    requires SoundButSlips(d, base, cfg) && SlipsOnBook(d.book) == Outcomes(SlipsOf(d.log)) + [realized]
    ensures Sound(Recorded(d, expected, realized), base, cfg) && Extends(d, Recorded(d, expected, realized))
  {
    var next := Recorded(d, expected, realized);
    SlipExtendsLog(base.session, d.session, d.log, expected, realized);
    RealizedOfAppend(SlipsOf(d.log), expected, realized);
    hide SlipsOf, Outcomes, Total, FilledUnder, OpenCommissions, OpenSlips, ReplayFrom, TradesOf, PnlSum, Exposure,
      Books, Orders;
    assert Books(next) && Orders(next, cfg) by {
      BooksIgnoreTheSession(d, next, cfg);
    }
  }

  lemma RealizedOfAppend(samples: seq<(real, real)>, expected: real, realized: real)
    ensures Outcomes(samples + [(expected, realized)]) == Outcomes(samples) + [realized]
  {
  }

  lemma BooksIgnoreTheSession(d: Desk, next: Desk, cfg: DeskConfig)
    requires next.book == d.book && next.portfolio == d.portfolio && next.nextId == d.nextId
    ensures Books(next) == Books(d) && Orders(next, cfg) == Orders(d, cfg)
  {
    hide Matched, UniqueIds, OrderAddsUp;
  }

  lemma ExecuteKeeps(d: Desk, c: Candidate, decision: Decision, snap: Snapshot, cfg: DeskConfig, draws: Draws,
      base: Baseline)
    requires Sound(d, base, cfg) && Granted(d, c, decision.maxContracts, cfg) && cfg.costs.FeePerContract() >= 0.0
    ensures var x := Execute(d, c, decision, snap, cfg, draws);
      Sound(x.desk, base, cfg) && Extends(d, x.desk) && x.desk.switches == d.switches
  {
    hide Work, Sound, SoundButFees, SoundButSlips, Extends, Commission, Granted, Opened, Withdrawn, ExpectedSlippage,
      SlipsOnBook, SlipsOf, Outcomes, Charged;
    assert decision.maxContracts >= 1 && c.maxLoss.Finite? by { GrantedParts(d, c, decision.maxContracts, cfg); }
    var o := OpenOrder(c, decision, d.nextId);
    if !CanSubmit(d.book, o) {
      BumpKeeps(d, base, cfg);
    } else {
      var r := Work(o, snap, cfg, draws);
      var worked := AfterWork(d, o, r);
      WorkIsWorked(d, o, snap, cfg, draws);
      WorkKeeps(d, o, r, base, cfg);
      if r.fill.None? {
        UnfilledKeeps(d, o, r, base, cfg);
      } else {
        var fill := r.fill.value;
        var p := NewPosition(c, fill, worked.nextId, snap.timestamp);
        CommissionIsNonNegative(o.strategy.legs, cfg.costs, fill.contracts);
        FilledKeeps(d, c, decision.maxContracts, o, r, p, base, cfg);
        var entered := Opened(worked, p);
        var expected := ExpectedSlippage(c, fill.contracts);
        RecordedKeeps(entered, expected, fill.slippageVsMid, base, cfg);
        FilledExecution(d, c, decision, snap, cfg, draws);
        ExtendsIsTransitive(d, entered, Recorded(entered, expected, fill.slippageVsMid));
        assert entered.switches == d.switches by { SwitchesStay(d, o, r, p); }
      }
    }
  }

  lemma FilledExecution(d: Desk, c: Candidate, decision: Decision, snap: Snapshot, cfg: DeskConfig, draws: Draws)
    requires c.maxLoss.Finite? && CanSubmit(d.book, OpenOrder(c, decision, d.nextId))
    requires Work(OpenOrder(c, decision, d.nextId), snap, cfg, draws).fill.Some?
    ensures var o := OpenOrder(c, decision, d.nextId);
      var r := Work(o, snap, cfg, draws);
      var worked := AfterWork(d, o, r);
      var entered := Opened(worked, NewPosition(c, r.fill.value, worked.nextId, snap.timestamp));
      var expected, realized := ExpectedSlippage(c, r.fill.value.contracts), r.fill.value.slippageVsMid;
      Execute(d, c, decision, snap, cfg, draws)
        == Outcome(Recorded(entered, expected, realized), [], r.fill, false)
  {
    hide Work, ExpectedSlippage, Commission;
  }

  lemma GrantedParts(d: Desk, c: Candidate, contracts: int, cfg: DeskConfig)
    requires Granted(d, c, contracts, cfg)
    ensures contracts >= 1 && c.maxLoss.Finite? && c.maxLoss.value > 0.0
  {
  }

  lemma SwitchesStay(d: Desk, o: Order, r: Polled, p: Position)
    ensures Opened(AfterWork(d, o, r), p).switches == d.switches
  {
  }

  lemma UnfilledKeeps(d: Desk, o: Order, r: Polled, base: Baseline, cfg: DeskConfig)
    requires Sound(d, base, cfg) && IsFresh(d, o) && Worked(o, r) && r.fill.None?
    requires SoundButFees(AfterWork(d, o, r), base, cfg) && Extends(d, AfterWork(d, o, r))
    requires Charged(d, AfterWork(d, o, r), r)
    ensures var next := Withdrawn(AfterWork(d, o, r), o.id);
      Sound(next, base, cfg) && Extends(d, next) && next.switches == d.switches
  {
    hide Sound, SoundButFees;
    var worked := AfterWork(d, o, r);
    FeesStay(d, worked, r, base, cfg);
    WithdrawnKeeps(worked, o.id, base, cfg);
    FreshIsUnknown(d, o, base, cfg);
  }

  lemma FreshIsUnknown(d: Desk, o: Order, base: Baseline, cfg: DeskConfig)
    requires Sound(d, base, cfg) && o.id == d.nextId
    ensures o.id !in d.book.orders
  {
  }

  lemma FilledKeeps(d: Desk, c: Candidate, contracts: int, o: Order, r: Polled, p: Position, base: Baseline,
      cfg: DeskConfig)
    requires Sound(d, base, cfg) && Granted(d, c, contracts, cfg)
    requires IsFresh(d, o) && Worked(o, r) && r.fill.Some? && o.contracts == contracts && o.intent.OpenIntent?
    requires var worked := AfterWork(d, o, r);
      && SoundButFees(worked, base, cfg) && Extends(d, worked) && Charged(d, worked, r)
    requires p.id == d.nextId + 1 && p.IsOpen() && p.contracts == r.fill.value.contracts
    requires p.maxLossPerContract == c.maxLoss.value
    requires p.entryCommission == r.fill.value.commission >= 0.0 && p.strategy == c.strategy
    ensures var next := Opened(AfterWork(d, o, r), p);
      && SoundButSlips(next, base, cfg) && Extends(d, next)
      && SlipsOnBook(next.book) == Outcomes(SlipsOf(next.log)) + [r.fill.value.slippageVsMid]
  {
    var worked := AfterWork(d, o, r);
    assert worked.portfolio == d.portfolio && worked.nextId == d.nextId + 1;
    assert Exposure(d.portfolio, cfg.risk) && Books(d) && FeesMatch(d, base) && SlipsMatch(d);
    hide AfterWork, Total, Exposure, Sound, SoundButFees, SoundButSlips, Extends, OpenCommissions, OpenSlips, SlipsOf,
      Outcomes;
    OpenFitsExposure(d, c, contracts, p, cfg);
    OpenedKeeps(worked, p, base, cfg);
    ExtendsIsTransitive(d, worked, Opened(worked, p));
  }

  // ---------------------------------------------------------------- the verdict

  lemma JudgeRollsAndLatches(d: Desk, c: Option<Candidate>, snap: Snapshot, f: Forecast, cfg: DeskConfig)
    ensures var v := Evaluation(d, c, snap, f, cfg);
      v.session == d.session.RolledTo(snap.day, d.book.equity) && Latched(d.switches, v.switches)
  {
    hide BooksAgree, SwitchesAfter, SizePosition, CandidateVetoes, PortfolioVetoes, SessionVetoes, EnvironmentVetoes,
      BrokerVetoes, AvailableRisk, Latched, SessionRecord.RolledTo;
    SwitchesOnlyLatch(d.switches, d.session.RolledTo(snap.day, d.book.equity), snap, f, Observe(d), cfg.risk);
  }

  /** Only the session, the switches and the log move, and the identity still holds of them. */
  lemma SessionMoves(d: Desk, next: Desk, base: Baseline, cfg: DeskConfig)
    requires Sound(d, base, cfg)
    requires next == d.(session := next.session, switches := next.switches, log := next.log) && d.log <= next.log
    requires next.session == ReplayFrom(base.session, next.log)
    requires TradesOf(next.log) == TradesOf(d.log) && SlipsOf(next.log) == SlipsOf(d.log)
    ensures Sound(next, base, cfg) && Extends(d, next)
  {
    hide Total, FilledUnder, OpenCommissions, Exposure, Matched, UniqueIds, PnlSum, ReplayFrom, TradesOf;
  }

  lemma JudgedKeeps(d: Desk, c: Option<Candidate>, snap: Snapshot, f: Forecast, base: Baseline, cfg: DeskConfig)
    requires Sound(d, base, cfg)
    ensures var j := Judged(d, Evaluation(d, c, snap, f, cfg), snap.day);
      Sound(j, base, cfg) && Extends(d, j) && Latched(d.switches, j.switches)
  {
    JudgeRollsAndLatches(d, c, snap, f, cfg);
    RollExtendsLog(base.session, d.session, d.log, snap.day, d.book.equity);
    hide Sound, Extends, Evaluation, Latched, ReplayFrom, TradesOf, SessionRecord.RolledTo;
    SessionMoves(d, Judged(d, Evaluation(d, c, snap, f, cfg), snap.day), base, cfg);
  }

  lemma RollExtendsLog(from: SessionRecord, s: SessionRecord, log: seq<SessionEvent>, day: int, equity: real)
    requires s == ReplayFrom(from, log)
    ensures s.RolledTo(day, equity) == ReplayFrom(from, log + [Roll(day, equity)])
    ensures TradesOf(log + [Roll(day, equity)]) == TradesOf(log) && SlipsOf(log + [Roll(day, equity)]) == SlipsOf(log)
  {
    var longer := log + [Roll(day, equity)];
    assert longer[..|longer| - 1] == log;
    assert TradesOf(longer) == TradesOf(log) + [] == TradesOf(log);
    assert SlipsOf(longer) == SlipsOf(log) + [] == SlipsOf(log);
  }
}
