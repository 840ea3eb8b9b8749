/** Replaying the execution ledger in one pass: cash, holdings, last fills, turnover by date and prior
    equity by date (daily_quant_report.py, `_compute_execution_basis_metrics`), against a
    specification that looks at each date on its own. */
module LedgerReplay {
  import opened Wrappers
  import opened Sequences
  import opened Grid
  import opened Positions
  import Text

  /** One row of the deduplicated ledger, its numbers already coerced; `time` is the optional
      timestamp column. */
  datatype LedgerRow = LedgerRow(date: string, time: Option<string>, status: string, ticker: string, side: string,
                                 quantity: real, price: real, notional: real, fees: real)

  const EXECUTED := {"FILLED", "FILLED_ESTIMATE", "READY", "EXECUTED"}

  function TickerOf(r: LedgerRow): string { Text.Upper(r.ticker) }

  function SideOf(r: LedgerRow): string { Text.Upper(r.side) }

  function Times(a: real, b: real): real { a * b }

  function NotionalOf(r: LedgerRow): real {
    if Abs(r.notional) > 0.0 then Abs(r.notional) else Abs(Times(r.quantity, r.price))
  }

  /** A row that moves something: dated, with a positive quantity and price. */
  predicate Effective(r: LedgerRow) {
    r.date != "" && r.quantity > 0.0 && r.price > 0.0
  }

  // ----- Which rows are replayed, and in which order

  predicate Chosen(r: LedgerRow, tradeDate: string, hasStatus: bool) {
    Text.Leq(r.date, tradeDate) && (hasStatus ==> Text.Upper(r.status) in EXECUTED)
  }

  /** By date, then by timestamp with missing timestamps last. */
  predicate InOrder(a: LedgerRow, b: LedgerRow) {
    if a.date != b.date then Text.Leq(a.date, b.date)
    else b.time.None? || (a.time.Some? && Text.Leq(a.time.value, b.time.value))
  }

  function Used(rows: seq<LedgerRow>, tradeDate: string, hasStatus: bool): seq<LedgerRow> {
    SortBy(InOrder, Filter(r => Chosen(r, tradeDate, hasStatus), rows))
  }

  // ----- The account

  datatype Book = Book(cash: real, holdings: Holdings, fills: map<string, real>)

  function Amount(m: map<string, real>, k: string): real {
    if k in m then m[k] else 0.0
  }

  function WorthOf(b: Book, ticker: string): real {
    Times(Max(0.0, Amount(b.holdings, ticker)), Amount(b.fills, ticker))
  }

  function Worth(b: Book, tickers: set<string>): real
    decreases |tickers|
  {
    if tickers == {} then 0.0
    else var t := Least(tickers); WorthOf(b, t) + Worth(b, tickers - {t})
  }

  /** Every holding at its last fill. */
  function HoldingsValue(b: Book): real {
    Worth(b, b.holdings.Keys)
  }

  function Equity(b: Book): real {
    b.cash + HoldingsValue(b)
  }

  /** What one row does to the account; a sell is clipped to the shares held. */
  function Settle(b: Book, r: LedgerRow): Book {
    var t := TickerOf(r);
    if !Effective(r) then b
    else if SideOf(r) == "BUY" then
      Book(b.cash - (NotionalOf(r) + r.fees), b.holdings[t := Max(0.0, Amount(b.holdings, t) + r.quantity)],
           b.fills[t := r.price])
    else if SideOf(r) == "SELL" then
      var held := Max(0.0, Amount(b.holdings, t));
      var sold := Min(r.quantity, held);
      Book(b.cash + (Times(sold, r.price) - r.fees), b.holdings[t := Max(0.0, held - sold)], b.fills[t := r.price])
    else b
  }

  function Settled(b: Book, rows: seq<LedgerRow>): Book {
    if rows == [] then b else Settle(Settled(b, rows[..|rows| - 1]), rows[|rows| - 1])
  }

  function Opening(startingCash: real): Book {
    Book(startingCash, map[], map[])
  }

  // ----- The one-pass replay

  datatype Replay = Replay(book: Book, turnover: map<string, real>, prior: map<string, real>, current: Option<string>)

  function Opened(s: Replay, date: string): Replay {
    if s.current == Some(date) then s
    else s.(prior := s.prior[date := Equity(s.book)],
            turnover := if date in s.turnover then s.turnover else s.turnover[date := 0.0],
            current := Some(date))
  }

  function Step(s: Replay, r: LedgerRow): Replay {
    if r.date == "" then s
    else
      var o := Opened(s, r.date);
      if !Effective(r) then o
      else o.(book := Settle(o.book, r), turnover := o.turnover[r.date := Amount(o.turnover, r.date) + NotionalOf(r)])
  }

  function Replayed(startingCash: real, rows: seq<LedgerRow>): Replay {
    if rows == [] then Replay(Opening(startingCash), map[], map[], None)
    else Step(Replayed(startingCash, rows[..|rows| - 1]), rows[|rows| - 1])
  }

  // ----- The specification, date by date

  predicate Seen(rows: seq<LedgerRow>, date: string) {
    date != "" && exists i :: 0 <= i < |rows| && rows[i].date == date
  }

  predicate Before(r: LedgerRow, date: string) {
    r.date != date && Text.Leq(r.date, date)
  }

  /** The rows strictly before a date. */
  function Earlier(rows: seq<LedgerRow>, date: string): seq<LedgerRow> {
    Filter(r => Before(r, date), rows)
  }

  /** The notional of the effective rows of a date. */
  function TurnoverOn(rows: seq<LedgerRow>, date: string): real {
    if rows == [] then 0.0
    else
      var last := rows[|rows| - 1];
      TurnoverOn(rows[..|rows| - 1], date) + if last.date == date && Effective(last) then NotionalOf(last) else 0.0
  }

  /** What equity was before the first trade of a date; the starting cash when the date has no row. */
  function PriorEquity(startingCash: real, rows: seq<LedgerRow>, date: string): real {
    if Seen(rows, date) then Equity(Settled(Opening(startingCash), Earlier(rows, date))) else startingCash
  }

  datatype Metrics = Metrics(equity: real, cash: real, holdingsValue: real, turnover: real, turnoverPct: real,
                             priorEquity: real, rowsUsed: nat)

  function Ratio(a: real, b: real): real {
    if b > 0.0 then a / b else 0.0
  }

  function MetricsOf(startingCash: real, used: seq<LedgerRow>, tradeDate: string): Metrics {
    var book := Settled(Opening(startingCash), used);
    var turnover := TurnoverOn(used, tradeDate);
    var prior := PriorEquity(startingCash, used, tradeDate);
    Metrics(Equity(book), book.cash, HoldingsValue(book), turnover, Ratio(turnover, prior), prior, |used|)
  }

  // ----- Order facts

  ghost predicate ByDate(rows: seq<LedgerRow>) {
    forall i, j :: 0 <= i < j < |rows| ==> Text.Leq(rows[i].date, rows[j].date)
  }

  lemma InOrderTransitive(a: LedgerRow, b: LedgerRow, c: LedgerRow)
    requires InOrder(a, b) && InOrder(b, c)
    ensures InOrder(a, c)
  {
    hide Text.Leq;
    if a.date != b.date && b.date != c.date {
      Text.LeqTransitive(a.date, b.date, c.date);
      if a.date == c.date { Text.LeqAntisymmetric(a.date, b.date); }
    } else if a.date == b.date == c.date && c.time.Some? {
      Text.LeqTransitive(a.time.value, b.time.value, c.time.value);
    }
  }

  lemma InOrderTotal()
    ensures TotalPreorder(InOrder)
  {
    forall a, b ensures InOrder(a, b) || InOrder(b, a) {
      Text.LeqTotal(a.date, b.date);
      if a.time.Some? && b.time.Some? { Text.LeqTotal(a.time.value, b.time.value); }
    }
    forall a, b, c | InOrder(a, b) && InOrder(b, c) ensures InOrder(a, c) { InOrderTransitive(a, b, c); }
  }

  lemma UsedByDate(rows: seq<LedgerRow>, tradeDate: string, hasStatus: bool)
    ensures ByDate(Used(rows, tradeDate, hasStatus))
    ensures forall r :: r in Used(rows, tradeDate, hasStatus) <==>
              r in rows && Text.Leq(r.date, tradeDate) && (hasStatus ==> Text.Upper(r.status) in EXECUTED)
  {
    InOrderTotal();
    FilterElements(r => Chosen(r, tradeDate, hasStatus), rows);
    SortByElements(InOrder, Filter(r => Chosen(r, tradeDate, hasStatus), rows));
    SortBySorted(InOrder, Filter(r => Chosen(r, tradeDate, hasStatus), rows));
    hide Text.Leq;
    var used := Used(rows, tradeDate, hasStatus);
    forall i, j | 0 <= i < j < |used| ensures Text.Leq(used[i].date, used[j].date) {
      Text.LeqTotal(used[i].date, used[i].date);
      assert InOrder(used[i], used[j]);
    }
  }

  lemma EarlierSnoc(rows: seq<LedgerRow>, r: LedgerRow, date: string)
    ensures Earlier(rows + [r], date) == Earlier(rows, date) + if Before(r, date) then [r] else []
  {
    hide Before;
    FilterAppend(r => Before(r, date), rows, [r]);
  }

  // ----- The replay refines the specification

  lemma {:induction false} ReplayedBook(startingCash: real, rows: seq<LedgerRow>)
    ensures Replayed(startingCash, rows).book == Settled(Opening(startingCash), rows)
  {
    hide Settle, Equity;
    if rows != [] {
      ReplayedBook(startingCash, rows[..|rows| - 1]);
      IneffectiveStays(Replayed(startingCash, rows[..|rows| - 1]).book, rows[|rows| - 1]);
    }
  }

  lemma IneffectiveStays(b: Book, r: LedgerRow)
    ensures !Effective(r) ==> Settle(b, r) == b
  {
  }

  lemma {:induction false} ReplayedTurnover(startingCash: real, rows: seq<LedgerRow>)
    ensures var s := Replayed(startingCash, rows);
            && (forall d :: d in s.turnover <==> Seen(rows, d))
            && (forall d :: d in s.turnover ==> s.turnover[d] == TurnoverOn(rows, d))
            && (s.current.Some? ==> Seen(rows, s.current.value))
  {
    hide Settle, Equity, NotionalOf;
    if rows != [] {
      var front, r := rows[..|rows| - 1], rows[|rows| - 1];
      ReplayedTurnover(startingCash, front);
      SeenSnoc(front, r);
      assert rows == front + [r];
      UnseenTurnover(front, r.date);
      hide Seen;
    }
  }

  lemma SeenSnoc(rows: seq<LedgerRow>, r: LedgerRow)
    ensures forall d :: Seen(rows + [r], d) <==> Seen(rows, d) || (d != "" && r.date == d)
  {
    forall d ensures Seen(rows + [r], d) <==> Seen(rows, d) || (d != "" && r.date == d) {
      assert (rows + [r])[|rows|] == r;
      if Seen(rows, d) {
        var i :| 0 <= i < |rows| && rows[i].date == d;
        assert (rows + [r])[i].date == d;
      }
    }
  }

  lemma {:induction false} UnseenTurnover(rows: seq<LedgerRow>, date: string)
    ensures date != "" && !Seen(rows, date) ==> TurnoverOn(rows, date) == 0.0
  {
    hide Effective, NotionalOf;
    if rows != [] {
      var front := rows[..|rows| - 1];
      assert rows == front + [rows[|rows| - 1]];
      SeenSnoc(front, rows[|rows| - 1]);
      UnseenTurnover(front, date);
    }
  }

  /** The date the replay is on is the date of the last row, unless no row is dated. */
  lemma {:induction false} ReplayedCurrent(startingCash: real, rows: seq<LedgerRow>)
    requires ByDate(rows)
    ensures Replayed(startingCash, rows).current
         == if rows == [] || rows[|rows| - 1].date == "" then None else Some(rows[|rows| - 1].date)
  {
    hide Settle, Equity, NotionalOf;
    if rows != [] {
      var front, r := rows[..|rows| - 1], rows[|rows| - 1];
      ReplayedCurrent(startingCash, front);
      if r.date == "" && front != [] {
        assert Text.Leq(rows[|front| - 1].date, rows[|front|].date);
      }
    }
  }

  /** On date-sorted rows the prior equity of every date seen is the equity of the account settled
      over the strictly earlier rows. */
  lemma {:induction false} ReplayedPrior(startingCash: real, rows: seq<LedgerRow>)
    requires ByDate(rows)
    ensures var s := Replayed(startingCash, rows);
            && (forall d :: d in s.prior <==> Seen(rows, d))
            && (forall d :: d in s.prior ==> s.prior[d] == Equity(Settled(Opening(startingCash), Earlier(rows, d))))
  {
    hide Settle, Equity, NotionalOf, Text.Leq, Earlier, Settled, Replayed;
    if rows != [] {
      var front, r := rows[..|rows| - 1], rows[|rows| - 1];
      assert rows == front + [r];
      ReplayedPrior(startingCash, front);
      var s, t := Replayed(startingCash, front), Replayed(startingCash, rows);
      ReplayedUnfold(startingCash, front, r);
      SeenSnoc(front, r);
      forall d | Seen(rows, d) ensures Earlier(rows, d) == Earlier(front, d) {
        SeenIsNotLater(front, r, d);
        EarlierSnoc(front, r, d);
      }
      if r.date != "" && s.current != Some(r.date) {
        NewDate(startingCash, front, r);
        ReplayedBook(startingCash, front);
      }
    } else {
      ReplayedNothing(startingCash);
    }
  }

  lemma ReplayedUnfold(startingCash: real, rows: seq<LedgerRow>, r: LedgerRow)
    ensures var s, t := Replayed(startingCash, rows), Replayed(startingCash, rows + [r]);
            t.prior == if r.date == "" || s.current == Some(r.date) then s.prior else s.prior[r.date := Equity(s.book)]
    ensures Replayed(startingCash, rows).current.Some? ==> Seen(rows, Replayed(startingCash, rows).current.value)
  {
    assert (rows + [r])[..|rows|] == rows;
    ReplayedTurnover(startingCash, rows);
    hide Settle, Equity, NotionalOf, Seen;
  }

  lemma ReplayedNothing(startingCash: real)
    ensures Replayed(startingCash, []).prior == map[]
    ensures forall d :: !Seen([], d)
  {
  }

  lemma SeenIsNotLater(front: seq<LedgerRow>, r: LedgerRow, date: string)
    requires ByDate(front + [r]) && Seen(front + [r], date)
    ensures !Before(r, date)
  {
    hide Text.Leq;
    var rows := front + [r];
    var i :| 0 <= i < |rows| && rows[i].date == date;
    if i < |front| {
      assert Text.Leq(rows[i].date, rows[|front|].date);
      if Text.Leq(r.date, date) { Text.LeqAntisymmetric(r.date, date); }
    }
  }

  /** When a date-sorted replay opens a date, every row so far is strictly earlier. */
  lemma NewDate(startingCash: real, front: seq<LedgerRow>, r: LedgerRow)
    requires ByDate(front + [r]) && r.date != "" && Replayed(startingCash, front).current != Some(r.date)
    ensures Earlier(front, r.date) == front
  {
    hide Text.Leq;
    var rows := front + [r];
    assert ByDate(front) by {
      forall i, j | 0 <= i < j < |front| ensures Text.Leq(front[i].date, front[j].date) {
        assert Text.Leq(rows[i].date, rows[j].date);
      }
    }
    ReplayedCurrent(startingCash, front);
    forall i | 0 <= i < |front| ensures Before(front[i], r.date) {
      assert Text.Leq(rows[i].date, rows[|front|].date);
      if front[i].date == r.date && i < |front| - 1 {
        assert Text.Leq(rows[i].date, rows[|front| - 1].date);
        assert Text.Leq(rows[|front| - 1].date, rows[|front|].date);
        Text.LeqAntisymmetric(front[|front| - 1].date, r.date);
      }
    }
    FilterAll(r' => Before(r', r.date), front);
  }

  // ----- The method

  /** The pass over the rows. */
  method ReplayRows(used: seq<LedgerRow>, startingCash: real) returns (s: Replay)
    ensures s == Replayed(startingCash, used)
  {
    hide NotionalOf, HoldingsValue, Times;
    var cash := startingCash;
    var holdings: Holdings := map[];
    var lastFill: map<string, real> := map[];
    var turnoverByDate: map<string, real> := map[];
    var priorEquityByDate: map<string, real> := map[];
    var currentDate: Option<string> := None;
    for i := 0 to |used|
      invariant Replay(Book(cash, holdings, lastFill), turnoverByDate, priorEquityByDate, currentDate)
                == Replayed(startingCash, used[..i])
    {
      var row := used[i];
      assert used[..i + 1][..i] == used[..i];
      if row.date == "" { continue; }
      if Some(row.date) != currentDate {
        priorEquityByDate := priorEquityByDate[row.date := cash + HoldingsValue(Book(cash, holdings, lastFill))];
        if row.date !in turnoverByDate { turnoverByDate := turnoverByDate[row.date := 0.0]; }
        currentDate := Some(row.date);
      }
      var ticker, side := TickerOf(row), SideOf(row);
      if row.quantity <= 0.0 || row.price <= 0.0 { continue; }
      var notional := NotionalOf(row);
      if side == "BUY" {
        cash := cash - (notional + row.fees);
        holdings := holdings[ticker := Max(0.0, Amount(holdings, ticker) + row.quantity)];
        lastFill := lastFill[ticker := row.price];
      } else if side == "SELL" {
        var prevShares := Max(0.0, Amount(holdings, ticker));
        var sellQuantity := Min(row.quantity, prevShares);
        cash := cash + (Times(sellQuantity, row.price) - row.fees);
        holdings := holdings[ticker := Max(0.0, prevShares - sellQuantity)];
        lastFill := lastFill[ticker := row.price];
      }
      turnoverByDate := turnoverByDate[row.date := Amount(turnoverByDate, row.date) + notional];
    }
    assert used[..|used|] == used;
    return Replay(Book(cash, holdings, lastFill), turnoverByDate, priorEquityByDate, currentDate);
  }

  /** `_compute_execution_basis_metrics` on the deduplicated ledger: one pass over the sorted rows
      gives the metrics the per-date specification asks for. */
  method ComputeMetrics(rows: seq<LedgerRow>, tradeDate: string, hasStatus: bool, startingCash: real)
    returns (m: Metrics)
    ensures m == MetricsOf(startingCash, Used(rows, tradeDate, hasStatus), tradeDate)
  {
    hide Used, Replayed, HoldingsValue, Settled, TurnoverOn, Seen, Earlier;
    var used := Used(rows, tradeDate, hasStatus);
    var s := ReplayRows(used, startingCash);
    UsedByDate(rows, tradeDate, hasStatus);
    ReplayedBook(startingCash, used);
    ReplayedTurnover(startingCash, used);
    ReplayedPrior(startingCash, used);
    UnseenTurnover(used, tradeDate);
    UndatedTurnover(used);
    var priorEquity := if tradeDate in s.prior then s.prior[tradeDate] else startingCash;
    var turnover := Amount(s.turnover, tradeDate);
    SeenIsDated(used, tradeDate);
    return Metrics(s.book.cash + HoldingsValue(s.book), s.book.cash, HoldingsValue(s.book), turnover,
                   Ratio(turnover, priorEquity), priorEquity, |used|);
  }

  lemma SeenIsDated(rows: seq<LedgerRow>, date: string)
    ensures Seen(rows, date) ==> date != ""
  {
  }

  lemma {:induction false} UndatedTurnover(rows: seq<LedgerRow>)
    ensures TurnoverOn(rows, "") == 0.0
  {
    if rows != [] { UndatedTurnover(rows[..|rows| - 1]); }
  }

  // ----- What the account satisfies over every ledger

  ghost predicate NonNegative(h: Holdings) {
    forall t :: t in h ==> h[t] >= 0.0
  }

  /** Holdings never go negative, whatever is sold. */
  lemma {:induction false} HoldingsStayNonNegative(startingCash: real, rows: seq<LedgerRow>)
    ensures NonNegative(Settled(Opening(startingCash), rows).holdings)
    ensures Settled(Opening(startingCash), rows).holdings.Keys == Settled(Opening(startingCash), rows).fills.Keys
  {
    hide NotionalOf, Times;
    if rows != [] { HoldingsStayNonNegative(startingCash, rows[..|rows| - 1]); }
  }

  lemma {:induction false} WorthWithout(b: Book, tickers: set<string>, t: string)
    requires t in tickers
    ensures Worth(b, tickers) == WorthOf(b, t) + Worth(b, tickers - {t})
    decreases |tickers|
  {
    hide WorthOf;
    var l := Least(tickers);
    if l != t {
      WorthWithout(b, tickers - {l}, t);
      assert tickers - {l} - {t} == tickers - {t} - {l};
      LeastOfLess(tickers, t);
    }
  }

  lemma LeastOfLess(tickers: set<string>, t: string)
    requires t in tickers && Least(tickers) != t
    ensures Least(tickers) in tickers - {t} && Least(tickers - {t}) == Least(tickers)
  {
    hide Text.Leq;
    Text.LeqAntisymmetric(Least(tickers - {t}), Least(tickers));
  }

  lemma {:induction false} WorthAgrees(a: Book, b: Book, tickers: set<string>)
    requires forall t :: t in tickers ==> WorthOf(a, t) == WorthOf(b, t)
    ensures Worth(a, tickers) == Worth(b, tickers)
    decreases |tickers|
  {
    hide WorthOf;
    if tickers != {} { WorthAgrees(a, b, tickers - {Least(tickers)}); }
  }

  /** Moving one ticker moves the value of the holdings by what that ticker is worth. */
  lemma ValueMoves(a: Book, b: Book, t: string)
    requires b.holdings.Keys == a.holdings.Keys + {t}
    requires forall u :: u in a.holdings && u != t ==> WorthOf(b, u) == WorthOf(a, u)
    ensures HoldingsValue(b) - HoldingsValue(a) == WorthOf(b, t) - WorthOf(a, t)
  {
    WorthOfAbsent(a, t);
    hide WorthOf;
    var others := a.holdings.Keys - {t};
    assert b.holdings.Keys - {t} == others;
    WorthWithout(b, b.holdings.Keys, t);
    WorthAgrees(a, b, others);
    if t in a.holdings {
      WorthWithout(a, a.holdings.Keys, t);
    } else {
      assert a.holdings.Keys == others;
    }
  }

  lemma WorthOfAbsent(b: Book, t: string)
    ensures t !in b.holdings ==> WorthOf(b, t) == 0.0
  {
  }

  /** The effective buys and sells: the rows that move the account. */
  predicate Trades(r: LedgerRow) {
    Effective(r) && SideOf(r) in {"BUY", "SELL"}
  }

  /** What the shares held before a trade gain by its new price. */
  function PriceGain(b: Book, r: LedgerRow): real {
    if Trades(r) then Times(Amount(b.holdings, TickerOf(r)), r.price - Amount(b.fills, TickerOf(r))) else 0.0
  }

  /** What a buy is worth at its fill beyond the notional paid for it. */
  function BuyEdge(r: LedgerRow): real {
    if Trades(r) && SideOf(r) == "BUY" then Times(r.quantity, r.price) - NotionalOf(r) else 0.0
  }

  function Fees(r: LedgerRow): real {
    if Trades(r) then r.fees else 0.0
  }

  function Earned(startingCash: real, rows: seq<LedgerRow>): real {
    if rows == [] then 0.0
    else
      var front, r := rows[..|rows| - 1], rows[|rows| - 1];
      Earned(startingCash, front) + PriceGain(Settled(Opening(startingCash), front), r) - Fees(r) + BuyEdge(r)
  }

  lemma SellArithmetic(held: real, sold: real, was: real, price: real)
    ensures Times(held - sold, price) - Times(held, was) + Times(sold, price) == Times(held, price - was)
  {
  }

  lemma BuyArithmetic(held: real, bought: real, was: real, price: real)
    ensures Times(held + bought, price) - Times(held, was) == Times(held, price - was) + Times(bought, price)
  {
  }

  /** A ticker whose holdings and last fill are set anew moves equity by its new worth. */
  lemma ReplacedWorth(b: Book, t: string, cash: real, shares: real, price: real)
    requires NonNegative(b.holdings) && shares >= 0.0
    ensures Equity(Book(cash, b.holdings[t := shares], b.fills[t := price]))
         == Equity(b) + (cash - b.cash) + Times(shares, price) - Times(Amount(b.holdings, t), Amount(b.fills, t))
  {
    hide Times, Worth;
    var after := Book(cash, b.holdings[t := shares], b.fills[t := price]);
    assert after.holdings.Keys == b.holdings.Keys + {t};
    ValueMoves(b, after, t);
    hide HoldingsValue;
  }

  /** One row changes equity by the price move of what was held, minus fees, plus the edge of a buy;
      clipping a sell changes nothing in this. */
  lemma SettleChangesEquity(b: Book, r: LedgerRow)
    requires NonNegative(b.holdings)
    ensures Equity(Settle(b, r)) == Equity(b) + PriceGain(b, r) - Fees(r) + BuyEdge(r)
  {
    hide Times, NotionalOf, TickerOf, SideOf, Equity;
    if Trades(r) {
      var t := TickerOf(r);
      var held, was := Amount(b.holdings, t), Amount(b.fills, t);
      if SideOf(r) == "BUY" {
        BuyArithmetic(held, r.quantity, was, r.price);
        ReplacedWorth(b, t, b.cash - (NotionalOf(r) + r.fees), held + r.quantity, r.price);
      } else {
        var sold := Min(r.quantity, held);
        SellArithmetic(held, sold, was, r.price);
        ReplacedWorth(b, t, b.cash + (Times(sold, r.price) - r.fees), held - sold, r.price);
      }
    }
  }

  lemma OpeningEquity(startingCash: real)
    ensures Equity(Opening(startingCash)) == startingCash
  {
  }

  /** Final equity is the starting cash plus the telescoped price moves of held shares, minus fees,
      plus the edges of the buys, for every ledger. */
  lemma {:induction false} EquityDecomposition(startingCash: real, rows: seq<LedgerRow>)
    ensures Equity(Settled(Opening(startingCash), rows)) == startingCash + Earned(startingCash, rows)
  {
    hide Settle, PriceGain, Fees, BuyEdge, Equity, Opening;
    if rows == [] {
      OpeningEquity(startingCash);
    } else {
      var front := rows[..|rows| - 1];
      EquityDecomposition(startingCash, front);
      HoldingsStayNonNegative(startingCash, front);
      SettleChangesEquity(Settled(Opening(startingCash), front), rows[|rows| - 1]);
    }
  }
}
