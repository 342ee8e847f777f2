/**
 * Backend and slides together: the weekday buckets the backend computes are
 * the ones the weekday slide draws, so its bars are always well formed.
 */
module Pipeline {
  import opened Wrappers
  import opened Text
  import opened Statement
  import App
  import WrapSlides
  import Parse

  /** Whatever the transactions, every weekday bar lies in [0, 100] and the top day's bar is full when anything was spent. */
  lemma WeekBarsBounded(txs: seq<Transaction>, clock: App.Clock)
    ensures var w := App.WeekOf(txs, clock);
      (forall k :: 0 <= k < 7 ==> 0.0 <= WrapSlides.Bars(w)[k] <= 100.0) &&
      (WrapSlides.MaxAmount(w) > 0.0 ==> WrapSlides.Bars(w)[0] == 100.0)
  {
    App.WeekNonNegative(txs, clock);
    DrawnWeek(App.WeekOf(txs, clock));
    WrapSlides.BarsBounded(App.WeekOf(txs, clock));
  }

  /** A week whose seven buckets have non-negative amounts is one the weekday slide accepts. */
  lemma DrawnWeek(w: WeekdaySpending)
    requires w.monday.amount >= 0.0 && w.tuesday.amount >= 0.0 && w.wednesday.amount >= 0.0
    requires w.thursday.amount >= 0.0 && w.friday.amount >= 0.0 && w.saturday.amount >= 0.0
    requires w.sunday.amount >= 0.0
    ensures WrapSlides.NonNegativeWeek(w)
  {
  }

  /**
   * The closing slide counts one transaction per data row of the statement:
   * the sum over pages of the rows after each header.
   */
  lemma ClosingCount(pages: seq<Parse.Page>, d: ParsedStatement)
    requires Parse.TransactionsOf(pages).Success?
    requires |d.transactions| == |Parse.TransactionsOf(pages).value|
    ensures forall k :: 0 <= k < |pages| ==> pages[k].dominant.Some?
    ensures WrapSlides.ClosingOf(d).total == Parse.TotalDataRows(pages)
  {
    Parse.TransactionsCount(pages);
  }

  /** A period line whose two dates carry no padding is shown by the closing slide exactly as the statement wrote it. */
  lemma ClosingPeriod(period: string, d: ParsedStatement)
    requires Parse.PeriodDates(period).Some?
    requires Unpadded(SplitOnce(period, Parse.PeriodSeparator)[0]) && Unpadded(SplitOnce(period, Parse.PeriodSeparator)[1])
    requires (d.statementBeginDate, d.statementEndDate) == Parse.PeriodDates(period).value
    ensures WrapSlides.ClosingOf(d).period == period
  {
    Parse.PeriodRoundTrip(period);
  }
}
