/** What the average-cost books mean: a plain cash ledger that only adds up signed
    quantities and signed cash, and the reconciliation of closure events with it. */
module Ledger {
  import opened Schemas
  import opened Sums
  import opened Tracker

  // ---- the plain ledger, read straight off the history ----------------

  function SignedNotional(f: Fill): real {
    f.SignedSize() * f.price
  }

  /** Starting cash less every fee and every signed fill notional. */
  function LedgerCash(start: real, events: seq<Event>): real {
    if events == [] then start
    else
      var before := LedgerCash(start, Prefix(events));
      match Last(events)
      case Filled(f, _) => before - f.fee - SignedNotional(f)
      case Priced(_, _) => before
  }

  /** Signed quantity bought minus sold. */
  function NetQuantity(s: Symbol, events: seq<Event>): real {
    if events == [] then 0.0
    else
      var before := NetQuantity(s, Prefix(events));
      match Last(events)
      case Filled(f, _) => if f.symbol == s then before + f.SignedSize() else before
      case Priced(_, _) => before
  }

  /** The latest price seen for a symbol, from a fill or a positive mark. */
  function LatestMark(s: Symbol, events: seq<Event>): real {
    if events == [] then 0.0
    else
      match Last(events)
      case Filled(f, _) => if f.symbol == s then f.price else LatestMark(s, Prefix(events))
      case Priced(t, price) =>
        if t == s && price > 0.0 then price else LatestMark(s, Prefix(events))
  }

  function TradedSymbols(events: seq<Event>): set<Symbol> {
    if events == [] then {}
    else
      var before := TradedSymbols(Prefix(events));
      match Last(events)
      case Filled(f, _) => before + {f.symbol}
      case Priced(_, _) => before
  }

  function NetValue(s: Symbol, events: seq<Event>): real {
    NetQuantity(s, events) * LatestMark(s, events)
  }

  ghost function LedgerEquity(start: real, events: seq<Event>): real {
    LedgerCash(start, events) + TotalNetValue(events, TradedSymbols(events))
  }

  // ---- books against ledger -------------------------------------------

  function SignedBasis(b: Books, s: Symbol): real {
    if s in b.positions then b.positions[s].entryPrice * b.positions[s].SignedSize() else 0.0
  }

  function SignedSizeAt(b: Books, s: Symbol): real {
    if s in b.positions then b.positions[s].SignedSize() else 0.0
  }

  lemma AverageTimesTotal(a: real, m: real, b: real, n: real)
    requires m > 0.0 && n > 0.0
    ensures (a * m + b * n) / (m + n) * (m + n) == a * m + b * n
  {
  }

  /** One fill moves cost basis by its own signed notional plus what it realises. */
  lemma FillMovesBasis(b: Books, fill: Fill, order: Option<Order>)
    requires Sane(b) && fill.Valid()
    ensures var b' := Applied(b, fill, order).0; var s := fill.symbol;
      && SignedSizeAt(b', s) == SignedSizeAt(b, s) + fill.SignedSize()
      && b'.realizedPnl - b.realizedPnl + SignedNotional(fill)
         == SignedBasis(b', s) - SignedBasis(b, s)
      && b'.cash - b.cash == b'.realizedPnl - b.realizedPnl - fill.fee
  {
    var s := fill.symbol;
    if s in b.positions {
      var p := b.positions[s];
      if p.direction == fill.Direction() {
        AverageTimesTotal(p.entryPrice, p.size, fill.price, fill.size);
      } else {
        ReductionMovesBasis(p, fill);
      }
    }
  }

  lemma ReductionMovesBasis(p: Position, fill: Fill)
    requires p.Valid() && fill.Valid() && p.direction != fill.Direction()
    ensures var after := AfterReduction(p, fill);
      && (if after.Some? then after.value.SignedSize() else 0.0) == p.SignedSize() + fill.SignedSize()
      && (if after.Some? then after.value.entryPrice * after.value.SignedSize() else 0.0)
         == p.entryPrice * p.SignedSize() + RealizedBy(p, fill) + SignedNotional(fill)
  {
    var g := Sign(p.direction);
    assert g == 1.0 || g == -1.0;
    assert fill.SignedSize() == -g * fill.size;
  }

  /** A fill or a mark leaves every other symbol's position alone. */
  lemma EventTouchesOneSymbol(b: Books, fill: Fill, order: Option<Order>, s: Symbol)
    requires Sane(b) && fill.Valid() && s != fill.symbol
    ensures var b' := Applied(b, fill, order).0;
      && (s in b'.positions <==> s in b.positions)
      && (s in b.positions ==> b'.positions[s] == b.positions[s])
  {
  }

  lemma FillMovesQuantity(b: Books, fill: Fill, order: Option<Order>, s: Symbol)
    requires Sane(b) && fill.Valid()
    ensures var b' := Applied(b, fill, order).0;
      && SignedSizeAt(b', s) == SignedSizeAt(b, s) + (if fill.symbol == s then fill.SignedSize() else 0.0)
      && (s in b'.positions ==> s == fill.symbol || s in b.positions)
      && (s in b'.positions ==>
            b'.positions[s].markPrice == if s == fill.symbol then fill.price else b.positions[s].markPrice)
  {
  }

  /** Each position is the sign and size of its net fills, marked at the latest price. */
  lemma {:induction false} PositionsAreNetFills(start: real, events: seq<Event>, s: Symbol)
    requires ValidHistory(events)
    ensures var b := Run(start, events);
      && SignedSizeAt(b, s) == NetQuantity(s, events)
      && (s in b.positions ==>
            s in TradedSymbols(events) && b.positions[s].markPrice == LatestMark(s, events))
  {
    if events != [] {
      PositionsAreNetFills(start, Prefix(events), s);
      match Last(events) {
        case Filled(fill, order) =>
          FillMovesQuantity(Run(start, Prefix(events)), fill, order, s);
        case Priced(symbol, price) =>
      }
    }
  }

  ghost function TotalBasis(b: Books, symbols: set<Symbol>): real {
    SumOver(symbols, s => SignedBasis(b, s))
  }

  lemma FillMovesTotalBasis(b: Books, fill: Fill, order: Option<Order>, symbols: set<Symbol>)
    requires Sane(b) && fill.Valid() && b.positions.Keys <= symbols
    ensures var b' := Applied(b, fill, order).0;
      TotalBasis(b', symbols + {fill.symbol}) - TotalBasis(b, symbols)
      == b'.cash - b.cash + fill.fee + SignedNotional(fill)
  {
    var b' := Applied(b, fill, order).0;
    forall s | s != fill.symbol
      ensures SignedBasis(b, s) == SignedBasis(b', s)
    {
      EventTouchesOneSymbol(b, fill, order, s);
    }
    SumOverChange(symbols, fill.symbol, s => SignedBasis(b, s), s => SignedBasis(b', s));
    FillMovesBasis(b, fill, order);
  }

  lemma MarkKeepsTotalBasis(b: Books, symbol: Symbol, price: real, symbols: set<Symbol>)
    ensures TotalBasis(Marked(b, symbol, price), symbols) == TotalBasis(b, symbols)
  {
    var b' := Marked(b, symbol, price);
    SumOverExtensional(symbols, s => SignedBasis(b', s), s => SignedBasis(b, s));
  }

  predicate CashIdentity(start: real, b: Books) {
    b.cash == start + b.realizedPnl - b.feesPaid
  }

  ghost predicate CashMatches(b: Books, ledger: real, symbols: set<Symbol>) {
    b.positions.Keys <= symbols && b.cash == ledger + TotalBasis(b, symbols)
  }

  lemma FillKeepsCashMatching(b: Books, fill: Fill, order: Option<Order>, ledger: real, symbols: set<Symbol>)
    requires Sane(b) && fill.Valid() && CashMatches(b, ledger, symbols)
    ensures CashMatches(Applied(b, fill, order).0, ledger - fill.fee - SignedNotional(fill), symbols + {fill.symbol})
  {
    FillMovesTotalBasis(b, fill, order, symbols);
  }

  lemma FillKeepsCashIdentity(start: real, b: Books, fill: Fill, order: Option<Order>)
    requires Sane(b) && fill.Valid() && CashIdentity(start, b)
    ensures CashIdentity(start, Applied(b, fill, order).0)
  {
  }

  lemma MarkKeepsCashMatching(b: Books, symbol: Symbol, price: real, ledger: real, symbols: set<Symbol>)
    requires CashMatches(b, ledger, symbols)
    ensures CashMatches(Marked(b, symbol, price), ledger, symbols)
  {
    MarkKeepsTotalBasis(b, symbol, price, symbols);
  }

  /** The tracker's cash is the plain ledger's with the cost basis of open positions set aside. */
  lemma {:induction false} CashTracksLedger(start: real, events: seq<Event>)
    requires ValidHistory(events)
    ensures CashIdentity(start, Run(start, events))
    ensures CashMatches(Run(start, events), LedgerCash(start, events), TradedSymbols(events))
  {
    if events != [] {
      var before := Prefix(events);
      CashTracksLedger(start, before);
      var b := Run(start, before);
      match Last(events) {
        case Filled(fill, order) =>
          FillKeepsCashIdentity(start, b, fill, order);
          FillKeepsCashMatching(b, fill, order, LedgerCash(start, before), TradedSymbols(before));
        case Priced(symbol, price) =>
          MarkKeepsCashMatching(b, symbol, price, LedgerCash(start, before), TradedSymbols(before));
      }
    }
  }

  ghost function TotalUnrealized(b: Books, symbols: set<Symbol>): real {
    SumOver(symbols, s => UnrealizedAt(b, s))
  }

  ghost function TotalNetValue(events: seq<Event>, symbols: set<Symbol>): real {
    SumOver(symbols, s => NetValue(s, events))
  }

  lemma UnrealizedWidens(b: Books, symbols: set<Symbol>)
    requires b.positions.Keys <= symbols
    ensures UnrealizedPnl(b) == TotalUnrealized(b, symbols)
  {
    SumOverWiden(b.positions.Keys, symbols, s => UnrealizedAt(b, s));
  }

  lemma NetValuesSplit(b: Books, events: seq<Event>, symbols: set<Symbol>)
    requires forall s :: s in symbols ==> NetValue(s, events) == UnrealizedAt(b, s) + SignedBasis(b, s)
    ensures TotalNetValue(events, symbols) == TotalUnrealized(b, symbols) + TotalBasis(b, symbols)
  {
    SumOverPlus(symbols, s => UnrealizedAt(b, s), s => SignedBasis(b, s), s => NetValue(s, events));
  }

  lemma MarkSplitsIntoBasisAndPnl(b: Books, s: Symbol, quantity: real, mark: real)
    requires quantity == SignedSizeAt(b, s)
    requires s in b.positions ==> mark == b.positions[s].markPrice
    ensures quantity * mark == UnrealizedAt(b, s) + SignedBasis(b, s)
  {
    if s in b.positions {
      var p := b.positions[s];
      SplitProduct(p.markPrice, p.entryPrice, p.size, Sign(p.direction));
    }
  }

  lemma SplitProduct(mark: real, entry: real, size: real, sign: real)
    ensures size * sign * mark == (mark - entry) * size * sign + entry * (size * sign)
  {
    assert (mark - entry) * size * sign == (mark - entry) * (size * sign);
  }

  lemma NetValueSplits(b: Books, events: seq<Event>, s: Symbol)
    requires SignedSizeAt(b, s) == NetQuantity(s, events)
    requires s in b.positions ==> b.positions[s].markPrice == LatestMark(s, events)
    ensures NetValue(s, events) == UnrealizedAt(b, s) + SignedBasis(b, s)
  {
    MarkSplitsIntoBasisAndPnl(b, s, NetQuantity(s, events), LatestMark(s, events));
  }

  /** Main result: after any interleaving of fills and marks the tracker's equity is the
      plain ledger's, and its cash is start plus realised PnL less fees. */
  lemma EquityRefinesLedger(start: real, events: seq<Event>)
    requires ValidHistory(events)
    ensures var b := Run(start, events);
      && Equity(b) == LedgerEquity(start, events)
      && b.cash == start + b.realizedPnl - b.feesPaid
  {
    var b := Run(start, events);
    var traded := TradedSymbols(events);
    CashTracksLedger(start, events);
    UnrealizedWidens(b, traded);
    forall s | s in traded
      ensures NetValue(s, events) == UnrealizedAt(b, s) + SignedBasis(b, s)
    {
      PositionsAreNetFills(start, events, s);
      NetValueSplits(b, events, s);
    }
    NetValuesSplit(b, events, traded);
  }

  /** A symbol is held exactly when its fills do not net to zero, on the side and in the
      size that they net to. */
  lemma HoldingsAreNetFills(start: real, events: seq<Event>, s: Symbol)
    requires ValidHistory(events)
    ensures var b := Run(start, events); var q := NetQuantity(s, events);
      && (s in b.positions <==> q != 0.0)
      && (q > 0.0 ==> b.positions[s].direction == Long && b.positions[s].size == q)
      && (q < 0.0 ==> b.positions[s].direction == Short && b.positions[s].size == -q)
  {
    PositionsAreNetFills(start, events, s);
  }

  // ---- closure reconciliation -----------------------------------------

  /** Sum of net PnL over every closure event a history publishes. */
  function ClosedNetPnl(start: real, events: seq<Event>): real
    requires ValidHistory(events)
  {
    if events == [] then 0.0
    else
      var before := ClosedNetPnl(start, Prefix(events));
      match Last(events)
      case Filled(f, order) =>
        var closure := Applied(Run(start, Prefix(events)), f, order).1;
        if closure.Some? then before + closure.value.NetPnl() else before
      case Priced(_, _) => before
  }

  /** Fees of the fills that flipped a position. */
  function FlipFees(start: real, events: seq<Event>): real
    requires ValidHistory(events)
  {
    if events == [] then 0.0
    else
      var before := FlipFees(start, Prefix(events));
      match Last(events)
      case Filled(f, _) => if IsFlip(Run(start, Prefix(events)), f) then before + f.fee else before
      case Priced(_, _) => before
  }

  /** PnL realised by fills that only reduced a position. */
  function PartialPnl(start: real, events: seq<Event>): real
    requires ValidHistory(events)
  {
    if events == [] then 0.0
    else
      var before := PartialPnl(start, Prefix(events));
      match Last(events)
      case Filled(f, _) =>
        var b := Run(start, Prefix(events));
        if IsPartialClose(b, f) then before + RealizedBy(b.positions[f.symbol], f) else before
      case Priced(_, _) => before
  }

  function FeesAt(b: Books, s: Symbol): real {
    if s in b.positions then b.positions[s].feesPaid else 0.0
  }

  ghost function OpenFees(b: Books): real {
    SumOver(b.positions.Keys, s => FeesAt(b, s))
  }

  lemma OpenFeesChange(b: Books, b': Books, symbol: Symbol)
    requires forall s :: s != symbol ==> FeesAt(b', s) == FeesAt(b, s)
    requires b'.positions.Keys <= b.positions.Keys + {symbol}
    ensures OpenFees(b') == OpenFees(b) - FeesAt(b, symbol) + FeesAt(b', symbol)
  {
    SumOverChange(b.positions.Keys, symbol, s => FeesAt(b, s), s => FeesAt(b', s));
    SumOverWiden(b'.positions.Keys, b.positions.Keys + {symbol}, s => FeesAt(b', s));
  }

  /** The correction one fill makes: what it adds to cash, to open fees, and to the two discrepancies. */
  lemma FillReconciles(b: Books, fill: Fill, order: Option<Order>)
    requires Sane(b) && fill.Valid()
    ensures var (b', closure) := Applied(b, fill, order); var s := fill.symbol;
      (if closure.Some? then closure.value.NetPnl() else 0.0)
      == b'.cash - b.cash + FeesAt(b', s) - FeesAt(b, s)
         - (if IsFlip(b, fill) then fill.fee else 0.0)
         - (if IsPartialClose(b, fill) then RealizedBy(b.positions[s], fill) else 0.0)
  {
  }

  lemma FillMovesOpenFees(b: Books, fill: Fill, order: Option<Order>)
    requires Sane(b) && fill.Valid()
    ensures var b' := Applied(b, fill, order).0;
      OpenFees(b') == OpenFees(b) - FeesAt(b, fill.symbol) + FeesAt(b', fill.symbol)
  {
    OpenFeesChange(b, Applied(b, fill, order).0, fill.symbol);
  }

  lemma MarkKeepsOpenFees(b: Books, symbol: Symbol, price: real)
    ensures OpenFees(Marked(b, symbol, price)) == OpenFees(b)
  {
    OpenFeesChange(b, Marked(b, symbol, price), symbol);
  }

  /** Published closures add up to the cash actually made, corrected by what a closure leaves
      out (fees still on open positions, PnL of partial closes) and counts twice (flip fees). */
  lemma {:induction false} ClosuresReconcile(start: real, events: seq<Event>)
    requires ValidHistory(events)
    ensures var b := Run(start, events);
      ClosedNetPnl(start, events)
      == b.cash - start + OpenFees(b) - FlipFees(start, events) - PartialPnl(start, events)
  {
    if events != [] {
      var before := Prefix(events);
      ClosuresReconcile(start, before);
      var b := Run(start, before);
      match Last(events) {
        case Filled(fill, order) =>
          FillReconciles(b, fill, order);
          FillMovesOpenFees(b, fill, order);
        case Priced(symbol, price) =>
          MarkKeepsOpenFees(b, symbol, price);
      }
    }
  }

  /** Realised PnL that positions carried when their closure was published: no closure reports it. */
  function UnreportedPnl(start: real, events: seq<Event>): real
    requires ValidHistory(events)
  {
    if events == [] then 0.0
    else
      var before := UnreportedPnl(start, Prefix(events));
      match Last(events)
      case Filled(f, order) =>
        var b := Run(start, Prefix(events));
        if Applied(b, f, order).1.Some? then before + CarriedAt(b, f.symbol) else before
      case Priced(_, _) => before
  }

  function CarriedAt(b: Books, s: Symbol): real {
    if s in b.positions then b.positions[s].realizedPnl else 0.0
  }

  ghost function CarriedPnl(b: Books): real {
    SumOver(b.positions.Keys, s => CarriedAt(b, s))
  }

  lemma CarriedPnlChange(b: Books, b': Books, symbol: Symbol)
    requires forall s :: s != symbol ==> CarriedAt(b', s) == CarriedAt(b, s)
    requires b'.positions.Keys <= b.positions.Keys + {symbol}
    ensures CarriedPnl(b') == CarriedPnl(b) - CarriedAt(b, symbol) + CarriedAt(b', symbol)
  {
    SumOverChange(b.positions.Keys, symbol, s => CarriedAt(b, s), s => CarriedAt(b', s));
    SumOverWiden(b'.positions.Keys, b.positions.Keys + {symbol}, s => CarriedAt(b', s));
  }

  lemma FillCarries(b: Books, fill: Fill, order: Option<Order>)
    requires Sane(b) && fill.Valid()
    ensures var (b', closure) := Applied(b, fill, order); var s := fill.symbol;
      && CarriedPnl(b') == CarriedPnl(b) - CarriedAt(b, s) + CarriedAt(b', s)
      && (if IsPartialClose(b, fill) then RealizedBy(b.positions[s], fill) else 0.0)
         == CarriedAt(b', s) - CarriedAt(b, s) + (if closure.Some? then CarriedAt(b, s) else 0.0)
  {
    CarriedPnlChange(b, Applied(b, fill, order).0, fill.symbol);
  }

  lemma MarkCarries(b: Books, symbol: Symbol, price: real)
    ensures CarriedPnl(Marked(b, symbol, price)) == CarriedPnl(b)
  {
    CarriedPnlChange(b, Marked(b, symbol, price), symbol);
  }

  /** The PnL of partial closes is carried on the position until it closes, and then goes unreported. */
  lemma {:induction false} PartialPnlIsCarried(start: real, events: seq<Event>)
    requires ValidHistory(events)
    ensures PartialPnl(start, events) == CarriedPnl(Run(start, events)) + UnreportedPnl(start, events)
  {
    if events != [] {
      var before := Prefix(events);
      PartialPnlIsCarried(start, before);
      match Last(events) {
        case Filled(fill, order) =>
          FillCarries(Run(start, before), fill, order);
        case Priced(symbol, price) =>
          MarkCarries(Run(start, before), symbol, price);
      }
    }
  }

  /** With nothing open, the closures account for all of the cash made
      exactly when flip fees and partial-close PnL cancel. */
  lemma FlatClosuresMatchCash(start: real, events: seq<Event>)
    requires ValidHistory(events)
    requires Run(start, events).positions == map[]
    ensures ClosedNetPnl(start, events) == Run(start, events).cash - start
            <==> FlipFees(start, events) + PartialPnl(start, events) == 0.0
  {
    ClosuresReconcile(start, events);
  }
}
