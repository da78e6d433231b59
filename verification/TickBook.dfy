/**
 * The per-tick bookkeeping that the two-leg and the N-leg engine have in common: at most one open
 * position, a realised balance, the trade log, the rejection counters and one equity point per tick.
 */
module TickBook {
  import opened Reals
  import opened Legs

  const ENTER_LONG := 1
  const ENTER_SHORT := -1
  const CLOSE := 2

  predicate IsEntrySignal(signal: int) {
    signal == ENTER_LONG || signal == ENTER_SHORT
  }

  datatype Config = Config(initialCapital: real, sizePct: real, window: nat, maxNetExposurePct: real, risk: Risk)

  /** Dollar value of a drift of the traded price combination. */
  function Exposure(quantity: real, drift: real): real {
    Abs(quantity * drift)
  }

  function RiskBudget(cfg: Config): real {
    cfg.initialCapital * cfg.maxNetExposurePct
  }

  /** What one tick does to an engine that holds at most one position. */
  datatype Event<Pos> =
    | Hold
    | NoData
    | RiskLimit
    | Entered(position: Pos)
    | Closed(trade: Trade)
    | Called(trade: Trade)

  datatype Book<Pos> = Book(open: Option<Pos>, realized: real, trades: seq<Trade>, nextId: nat,
                            rejectedMissing: nat, rejectedRisk: nat, liquidations: nat, equity: seq<real>)

  function EmptyBook<Pos>(): Book<Pos> {
    Book(None, 0.0, [], 0, 0, 0, 0, [])
  }

  /** The event is one the engine can produce from this book. */
  predicate Fits<Pos>(b: Book<Pos>, e: Event<Pos>) {
    match e
    case Hold => true
    case NoData => b.open.None?
    case RiskLimit => b.open.None?
    case Entered(_) => b.open.None?
    case Closed(trade) => b.open.Some? && trade.id == b.nextId
    case Called(trade) => b.open.Some? && trade.id == b.nextId
  }

  function Settle<Pos>(b: Book<Pos>, trade: Trade): Book<Pos> {
    b.(open := None, realized := b.realized + trade.pnl, trades := b.trades + [trade], nextId := b.nextId + 1)
  }

  function Record<Pos>(b: Book<Pos>, e: Event<Pos>): Book<Pos> {
    match e
    case Hold => b
    case NoData => b.(rejectedMissing := b.rejectedMissing + 1)
    case RiskLimit => b.(rejectedRisk := b.rejectedRisk + 1)
    case Entered(position) => b.(open := Some(position))
    case Closed(trade) => Settle(b, trade)
    case Called(trade) => Settle(b, trade).(liquidations := b.liquidations + 1)
  }

  function Pnls(trades: seq<Trade>): seq<real> {
    seq(|trades|, i requires 0 <= i < |trades| => trades[i].pnl)
  }

  predicate IdsAreConsecutive(trades: seq<Trade>) {
    forall i :: 0 <= i < |trades| ==> trades[i].id == i
  }

  function Held<Pos>(b: Book<Pos>): nat {
    if b.open.Some? then 1 else 0
  }

  /** The accounting identities of a book that has seen `attempts` entry signals while flat. */
  ghost predicate Accounts<Pos>(b: Book<Pos>, attempts: nat) {
    && b.realized == Sum(Pnls(b.trades))
    && b.nextId == |b.trades|
    && IdsAreConsecutive(b.trades)
    && attempts == |b.trades| + Held(b) + b.rejectedMissing + b.rejectedRisk
    && b.liquidations <= |b.trades|
  }

  function IsAttempt<Pos>(e: Event<Pos>): nat {
    if e.NoData? || e.RiskLimit? || e.Entered? then 1 else 0
  }

  lemma PnlsAppend(trades: seq<Trade>, trade: Trade)
    ensures Sum(Pnls(trades + [trade])) == Sum(Pnls(trades)) + trade.pnl
  {
    assert Pnls(trades + [trade]) == Pnls(trades) + [trade.pnl];
    SumAppend(Pnls(trades), trade.pnl);
  }

  lemma RecordKeepsAccounts<Pos>(b: Book<Pos>, e: Event<Pos>, attempts: nat)
    requires Fits(b, e) && Accounts(b, attempts)
    ensures Accounts(Record(b, e), attempts + IsAttempt(e))
  {
    hide Sum, Pnls;
    if e.Closed? || e.Called? {
      PnlsAppend(b.trades, e.trade);
    }
  }

  /** One tick: record the event, then append the marked equity. */
  function Post<Pos>(b: Book<Pos>, e: Event<Pos>, initial: real, mark: real): Book<Pos> {
    var recorded := Record(b, e);
    recorded.(equity := recorded.equity + [initial + recorded.realized + mark])
  }

  lemma PostKeepsAccounts<Pos>(b: Book<Pos>, e: Event<Pos>, attempts: nat, initial: real, mark: real)
    requires Fits(b, e) && Accounts(b, attempts)
    ensures var next := Post(b, e, initial, mark);
            && Accounts(next, attempts + IsAttempt(e))
            && next.equity == b.equity + [initial + Sum(Pnls(next.trades)) + mark]
            && next.open == Record(b, e).open
  {
    hide Sum, Pnls, Fits;
    RecordKeepsAccounts(b, e, attempts);
  }

  /** A later book extends an earlier one: curve and log only grow, counters never fall. */
  predicate Extends<Pos>(later: Book<Pos>, earlier: Book<Pos>) {
    && earlier.equity <= later.equity
    && earlier.trades <= later.trades
    && earlier.rejectedMissing <= later.rejectedMissing
    && earlier.rejectedRisk <= later.rejectedRisk
    && earlier.liquidations <= later.liquidations
  }

  lemma PostExtends<Pos>(b: Book<Pos>, e: Event<Pos>, initial: real, mark: real)
    ensures Extends(Post(b, e, initial, mark), b)
  {}

  lemma ExtendsOnward<Pos>(latest: Book<Pos>, later: Book<Pos>, earlier: Book<Pos>)
    requires Extends(latest, later) && Extends(later, earlier)
    ensures Extends(latest, earlier)
  {}

  /** An extension has the earlier curve as its beginning and the earlier log too. */
  lemma ExtendedCurve<Pos>(later: Book<Pos>, earlier: Book<Pos>, t: nat)
    requires Extends(later, earlier) && |earlier.equity| == t
    ensures |later.equity| >= t && later.equity[..t] == earlier.equity && earlier.trades <= later.trades
  {}
}
