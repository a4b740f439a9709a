/**
 * The two derived holder tables of `render_analysis`: profit or loss of the
 * current institutional holders since their reporting date, and the outcome
 * of insider sales had the shares been kept. Both walk the rows in order and
 * skip a row that has no usable date, predates the price history, or fails.
 */
module Holders {
  import opened Wrappers
  import opened Text

  /** A trading date as a day number; `pd.to_datetime` parsing is not modelled. */
  type Day = int

  // ------------------------------------------------------- filter and map

  /** The rows for which f gives a value, in input order. */
  function FilterMap<A, B>(xs: seq<A>, f: A -> Option<B>): seq<B>
  {
    if xs == [] then []
    else (if f(xs[0]).Some? then [f(xs[0]).value] else []) + FilterMap(xs[1..], f)
  }

  /** The output of a concatenation is the concatenation of the outputs: input order is kept. */
  lemma {:induction false} FilterMapConcat<A, B>(xs: seq<A>, ys: seq<A>, f: A -> Option<B>)
    ensures FilterMap(xs + ys, f) == FilterMap(xs, f) + FilterMap(ys, f)
  {
    if xs == [] {
      assert xs + ys == ys;
    } else {
      var head := if f(xs[0]).Some? then [f(xs[0]).value] else [];
      assert (xs + ys)[0] == xs[0];
      assert (xs + ys)[1..] == xs[1..] + ys;
      FilterMapConcat(xs[1..], ys, f);
      calc {
        FilterMap(xs + ys, f);
        head + FilterMap(xs[1..] + ys, f);
        head + (FilterMap(xs[1..], f) + FilterMap(ys, f));
        (head + FilterMap(xs[1..], f)) + FilterMap(ys, f);
        FilterMap(xs, f) + FilterMap(ys, f);
      }
    }
  }

  /** An output row is the image of some input row, and every input row with an image is output. */
  lemma {:induction false} FilterMapMembers<A, B>(xs: seq<A>, f: A -> Option<B>, y: B)
    ensures y in FilterMap(xs, f) <==> exists i :: 0 <= i < |xs| && f(xs[i]) == Some(y)
    ensures |FilterMap(xs, f)| <= |xs|
  {
    if xs != [] {
      FilterMapMembers(xs[1..], f, y);
      if y in FilterMap(xs[1..], f) {
        var i :| 0 <= i < |xs[1..]| && f(xs[1..][i]) == Some(y);
        assert f(xs[i + 1]) == Some(y);
      }
      if exists i :: 0 <= i < |xs| && f(xs[i]) == Some(y) {
        var i :| 0 <= i < |xs| && f(xs[i]) == Some(y);
        if i > 0 {
          assert f(xs[1..][i - 1]) == Some(y);
        }
      }
    }
  }

  // ------------------------------------------------- current holders' P&L

  datatype HolderRecord = HolderRecord(holder: string, dateReported: Option<Day>)

  datatype Status = Profit | Loss

  datatype PnLRow = PnLRow(
    holder: string,
    dateReported: Day,
    entryPrice: real,
    currentPrice: real,
    pnlPct: real,
    status: Status)

  /**
   * One holder row: the entry price is the close nearest to the reporting date
   * (`closeNear`, pandas' nearest-index lookup), and the status is PROFIT when
   * the percentage gain is positive. A missing date, a date before the first
   * bar, or a zero entry price skips the row: with `df['Close']` a one-column
   * frame, `.item()` gives a Python float and the division by zero raises and
   * is caught. (With a plain column the row would be kept with an infinite or
   * NaN percentage; that path is not part of this model.)
   */
  function HolderPnL(r: HolderRecord, firstBar: Day, current: real, closeNear: Day -> real): (row: Option<PnLRow>)
    ensures row.Some? <==>
      r.dateReported.Some? && r.dateReported.value >= firstBar && closeNear(r.dateReported.value) != 0.0
    ensures row.Some? ==>
      && row.value.holder == r.holder && Some(row.value.dateReported) == r.dateReported
      && row.value.entryPrice == closeNear(row.value.dateReported) && row.value.currentPrice == current
      && row.value.pnlPct * row.value.entryPrice == (current - row.value.entryPrice) * 100.0
      && (row.value.status == Profit <==> row.value.pnlPct > 0.0)
  {
    match r.dateReported
    case None => None
    case Some(d) =>
      if d < firstBar then None
      else
        var entry := closeNear(d);
        if entry == 0.0 then None
        else
          var pnl := (current - entry) / entry * 100.0;
          Some(PnLRow(r.holder, d, entry, current, pnl, if pnl > 0.0 then Profit else Loss))
  }

  function PnLTable(rows: seq<HolderRecord>, firstBar: Day, current: real, closeNear: Day -> real): seq<PnLRow>
  {
    FilterMap(rows, r => HolderPnL(r, firstBar, current, closeNear))
  }

  /** The loop over `inst.iterrows()` that appends to `analysis_data`. */
  method AnalyseHolders(rows: seq<HolderRecord>, firstBar: Day, current: real, closeNear: Day -> real)
    returns (analysis: seq<PnLRow>)
    ensures analysis == PnLTable(rows, firstBar, current, closeNear)
  {
    analysis := [];
    var i := 0;
    while i < |rows|
      invariant 0 <= i <= |rows|
      invariant analysis == PnLTable(rows[..i], firstBar, current, closeNear)
    {
      var entry := HolderPnL(rows[i], firstBar, current, closeNear);
      if entry.Some? {
        analysis := analysis + [entry.value];
      }
      assert rows[..i + 1] == rows[..i] + [rows[i]];
      FilterMapConcat(rows[..i], [rows[i]], r => HolderPnL(r, firstBar, current, closeNear));
      i := i + 1;
    }
    assert rows[..i] == rows;
  }

  /**
   * Every P&L row comes from an input holder reported on or after the first
   * bar, priced at the close nearest that date; its status is PROFIT exactly
   * when the percentage is positive (zero is a LOSS), and, for a positive
   * entry price, exactly when the price has risen since.
   */
  lemma PnLRowsFaithful(rows: seq<HolderRecord>, firstBar: Day, current: real, closeNear: Day -> real, y: PnLRow)
    requires y in PnLTable(rows, firstBar, current, closeNear)
    ensures exists i :: 0 <= i < |rows| && rows[i].holder == y.holder && rows[i].dateReported == Some(y.dateReported)
    ensures y.dateReported >= firstBar && y.entryPrice == closeNear(y.dateReported) && y.currentPrice == current
    ensures y.status == Profit <==> y.pnlPct > 0.0
    ensures y.entryPrice > 0.0 ==> (y.status == Profit <==> current > y.entryPrice)
  {
    var f := r => HolderPnL(r, firstBar, current, closeNear);
    FilterMapMembers(rows, f, y);
    var i :| 0 <= i < |rows| && f(rows[i]) == Some(y);
    if y.entryPrice > 0.0 {
      PercentChangeSign(current, y.entryPrice);
    }
  }

  /** A holder with a date on or after the first bar and a non-zero entry price is listed. */
  lemma EligibleHolderListed(rows: seq<HolderRecord>, firstBar: Day, current: real, closeNear: Day -> real, i: nat)
    requires i < |rows| && rows[i].dateReported.Some?
    requires rows[i].dateReported.value >= firstBar && closeNear(rows[i].dateReported.value) != 0.0
    ensures HolderPnL(rows[i], firstBar, current, closeNear).Some?
    ensures HolderPnL(rows[i], firstBar, current, closeNear).value in PnLTable(rows, firstBar, current, closeNear)
  {
    var f := r => HolderPnL(r, firstBar, current, closeNear);
    FilterMapMembers(rows, f, f(rows[i]).value);
  }

  /** For a positive base price the percentage change is positive exactly when the price rose. */
  lemma PercentChangeSign(current: real, base: real)
    requires base > 0.0
    ensures (current - base) / base * 100.0 > 0.0 <==> current > base
  {
    var q := (current - base) / base;
    assert q * base == current - base;
  }

  // --------------------------------------------------------- insider sales

  datatype InsiderTx = InsiderTx(insider: string, text: string, startDate: Option<Day>)

  datatype Outcome = MissedGain | AvoidedLoss

  datatype SaleRow = SaleRow(
    insider: string,
    dateSold: Day,
    salePrice: real,
    currentPrice: real,
    diffPct: real,
    outcome: Outcome)

  /** The transaction text, lower-cased, mentions "sale". */
  predicate IsSale(tx: InsiderTx)
    ensures IsSale(tx) <==> exists i: nat :: OccursAt(Lower(tx.text), "sale", i)
  {
    Contains(Lower(tx.text), "sale")
  }

  /**
   * One insider transaction: only sales are analysed; the sale price is the
   * close nearest the start date, and the outcome is a missed gain when the
   * price has gone up since. Rows without a usable date, before the first bar,
   * or with a zero sale price are skipped: as in `HolderPnL`, the one-column
   * frame path turns the price into a Python float and the division by zero
   * raises and is caught.
   */
  function SaleAnalysis(tx: InsiderTx, firstBar: Day, current: real, closeNear: Day -> real): (row: Option<SaleRow>)
    ensures row.Some? <==>
      IsSale(tx) && tx.startDate.Some? && tx.startDate.value >= firstBar && closeNear(tx.startDate.value) != 0.0
    ensures row.Some? ==>
      && row.value.insider == tx.insider && Some(row.value.dateSold) == tx.startDate
      && row.value.salePrice == closeNear(row.value.dateSold) && row.value.currentPrice == current
      && row.value.diffPct * row.value.salePrice == (current - row.value.salePrice) * 100.0
      && (row.value.outcome == MissedGain <==> current > row.value.salePrice)
  {
    if !IsSale(tx) then None
    else
      match tx.startDate
      case None => None
      case Some(d) =>
        if d < firstBar then None
        else
          var sale := closeNear(d);
          var diff := current - sale;
          if sale == 0.0 then None
          else Some(SaleRow(tx.insider, d, sale, current, diff / sale * 100.0,
                            if diff > 0.0 then MissedGain else AvoidedLoss))
  }

  function SalesTable(txs: seq<InsiderTx>, firstBar: Day, current: real, closeNear: Day -> real): seq<SaleRow>
  {
    FilterMap(txs, tx => SaleAnalysis(tx, firstBar, current, closeNear))
  }

  /** The loop over `insider_tx.iterrows()` that appends to `sales_data`. */
  method AnalyseInsiderSales(txs: seq<InsiderTx>, firstBar: Day, current: real, closeNear: Day -> real)
    returns (salesData: seq<SaleRow>)
    ensures salesData == SalesTable(txs, firstBar, current, closeNear)
  {
    salesData := [];
    var i := 0;
    while i < |txs|
      invariant 0 <= i <= |txs|
      invariant salesData == SalesTable(txs[..i], firstBar, current, closeNear)
    {
      var row := SaleAnalysis(txs[i], firstBar, current, closeNear);
      if row.Some? {
        salesData := salesData + [row.value];
      }
      assert txs[..i + 1] == txs[..i] + [txs[i]];
      FilterMapConcat(txs[..i], [txs[i]], tx => SaleAnalysis(tx, firstBar, current, closeNear));
      i := i + 1;
    }
    assert txs[..i] == txs;
  }

  /**
   * Every analysed sale comes from a transaction whose lower-cased text
   * contains "sale", dated on or after the first bar; it is a missed gain
   * exactly when the current price exceeds the sale price, so an unchanged
   * price counts as an avoided loss.
   */
  lemma SaleRowsFaithful(txs: seq<InsiderTx>, firstBar: Day, current: real, closeNear: Day -> real, y: SaleRow)
    requires y in SalesTable(txs, firstBar, current, closeNear)
    ensures exists i :: 0 <= i < |txs| && IsSale(txs[i]) && txs[i].insider == y.insider && txs[i].startDate == Some(y.dateSold)
    ensures y.dateSold >= firstBar && y.salePrice == closeNear(y.dateSold) && y.salePrice != 0.0
    ensures y.outcome == MissedGain <==> current > y.salePrice
  {
    var f := tx => SaleAnalysis(tx, firstBar, current, closeNear);
    FilterMapMembers(txs, f, y);
    var i :| 0 <= i < |txs| && f(txs[i]) == Some(y);
  }

  /** A transaction that does not mention a sale never reaches the table. */
  lemma NonSalesExcluded(txs: seq<InsiderTx>, firstBar: Day, current: real, closeNear: Day -> real, i: nat)
    requires i < |txs| && !IsSale(txs[i])
    ensures SalesTable(txs, firstBar, current, closeNear)
         == SalesTable(txs[..i] + txs[i + 1..], firstBar, current, closeNear)
  {
    var f := tx => SaleAnalysis(tx, firstBar, current, closeNear);
    assert txs == txs[..i] + ([txs[i]] + txs[i + 1..]);
    FilterMapConcat(txs[..i], [txs[i]] + txs[i + 1..], f);
    FilterMapConcat([txs[i]], txs[i + 1..], f);
    FilterMapConcat(txs[..i], txs[i + 1..], f);
    assert FilterMap([txs[i]], f) == [];
  }
}
