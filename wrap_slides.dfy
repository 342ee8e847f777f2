/**
 * The facts each slide computes from the statement before rendering
 * (client/components/wrap-slides.tsx): money in and out, the category
 * ranking, the top counterparties, the dominant time of day and weekday with
 * their bars, and the weekday/weekend split. Markup is not modelled.
 */
module WrapSlides {
  import opened Wrappers
  import opened Text
  import opened Ranking
  import opened Statement

  // ---------------------------------------------------------------- Summary

  /** `parseFloat(s.replace(/,/g, ""))`, with None standing for NaN. */
  function ParseAmount(s: string): (r: Option<real>)
    ensures r.Some? <==> IsNumeral(RemoveAll(s, ','))
    ensures r.Some? ==> r.value >= 0.0
    ensures ',' !in s ==> r == ParseDecimal(s)
  {
    ParseDecimal(RemoveAll(s, ','))
  }

  datatype MoneyMovement = MoneyMovement(paidIn: Option<real>, paidOut: Option<real>, net: Option<real>)

  /** The summary slide's three figures; the slide reads `"TOTAL:"` without checking that it exists. */
  function MoneyMovementOf(summary: Summary): (m: MoneyMovement)
    requires TotalKey in summary
    ensures m.paidIn == ParseAmount(summary[TotalKey].paidIn)
    ensures m.paidOut == ParseAmount(summary[TotalKey].paidOut)
    ensures m.net.Some? <==> m.paidIn.Some? && m.paidOut.Some?
    ensures m.net.Some? ==> m.net.value == m.paidIn.value - m.paidOut.value
  {
    var paidIn := ParseAmount(summary[TotalKey].paidIn);
    var paidOut := ParseAmount(summary[TotalKey].paidOut);
    MoneyMovement(paidIn, paidOut,
      if paidIn.Some? && paidOut.Some? then Some(paidIn.value - paidOut.value) else None)
  }

  /**
   * Reading a total row of "7,233.00" paid in and "7,302.00" paid out: the
   * commas are dropped, the net is -69.0, and the slide shows it as negative.
   */
  lemma TotalScenario(summary: Summary)
    requires TotalKey in summary
    requires summary[TotalKey] == SummaryCategory("7,233.00", "7,302.00")
    ensures MoneyMovementOf(summary) == MoneyMovement(Some(7233.0), Some(7302.0), Some(-69.0))
    ensures !NetShownPositive(MoneyMovementOf(summary))
  {
    var row := summary[TotalKey];
    StatementShapes(row.paidIn);
    StatementShapes(row.paidOut);
    ThousandsValue(row.paidIn);
    ThousandsValue(row.paidOut);
  }

  /** The net line is green exactly when `netBalance >= 0`, which is false for NaN. */
  predicate NetShownPositive(m: MoneyMovement) {
    m.net.Some? && m.net.value >= 0.0
  }

  lemma NetShownPositiveIff(summary: Summary)
    requires TotalKey in summary
    ensures var m := MoneyMovementOf(summary);
      NetShownPositive(m) <==> m.paidIn.Some? && m.paidOut.Some? && m.paidOut.value <= m.paidIn.value
    ensures var m := MoneyMovementOf(summary);
      (m.paidIn.Some? ==> m.paidIn.value >= 0.0) && (m.paidOut.Some? ==> m.paidOut.value >= 0.0)
  {
  }

  // --------------------------------------------------------- Top categories

  datatype CategorySource = CategorySource(name: string, key: string)

  datatype CategoryAmount = CategoryAmount(name: string, amount: real)

  /** The four outbound categories the slide considers, in declaration order. */
  const Categories: seq<CategorySource> := [
    CategorySource("Sent Money", SendMoneyKey),
    CategorySource("Received Money", ReceivedMoneyKey),
    CategorySource("PayBill", PayBillKey),
    CategorySource("Buy Goods", BuyGoodsKey)]

  /** `parseFloat(paid_out.replace(/,/g, "") || "0")`: an empty paid-out reads as 0. */
  function PaidOutAmount(c: SummaryCategory): (r: Option<real>)
    ensures RemoveAll(c.paidOut, ',') == "" ==> r == Some(0.0)
    ensures RemoveAll(c.paidOut, ',') != "" ==> r == ParseAmount(c.paidOut)
    ensures r.Some? ==> r.value >= 0.0
  {
    var stripped := RemoveAll(c.paidOut, ',');
    if stripped == "" then ZeroNumeral(); ParseDecimal("0") else ParseDecimal(stripped)
  }

  /** A category survives both filters when its entry exists and its amount is a number above 0. */
  function Spending(summary: Summary, src: CategorySource): Option<CategoryAmount> {
    if src.key !in summary then None
    else match PaidOutAmount(summary[src.key])
      case Some(v) => if v > 0.0 then Some(CategoryAmount(src.name, v)) else None
      case None => None
  }

  /** The filter, map, filter chain, in declaration order. */
  function Kept(summary: Summary, srcs: seq<CategorySource>): seq<CategoryAmount> {
    if srcs == [] then []
    else (match Spending(summary, srcs[0]) case Some(c) => [c] case None => []) + Kept(summary, srcs[1..])
  }

  function AmountOf(c: CategoryAmount): real {
    c.amount
  }

  /** The slide's `categories` array after the sort. */
  function RankedCategories(summary: Summary): (r: seq<CategoryAmount>)
    ensures SortedDesc(r, AmountOf)
    ensures multiset(r) == multiset(Kept(summary, Categories))
    ensures forall v :: WithKey(r, AmountOf, v) == WithKey(Kept(summary, Categories), AmountOf, v)
  {
    var kept := Kept(summary, Categories);
    forall v ensures WithKey(SortDesc(kept, AmountOf), AmountOf, v) == WithKey(kept, AmountOf, v) {
      SortStable(kept, AmountOf, v);
    }
    SortDesc(kept, AmountOf)
  }

  /** `categories.slice(0, 4)`, the rows on screen. */
  function ShownCategories(summary: Summary): (r: seq<CategoryAmount>)
    ensures |r| <= 4 && r <= RankedCategories(summary)
    ensures |RankedCategories(summary)| <= 4 ==> r == RankedCategories(summary)
    ensures |RankedCategories(summary)| > 4 ==> |r| == 4
  {
    var r := RankedCategories(summary);
    if |r| <= 4 then r else r[..4]
  }

  /** `categories.length === 0`, the "No spending data" branch. */
  predicate NoSpendingData(summary: Summary) {
    |RankedCategories(summary)| == 0
  }

  lemma {:induction false} KeptMembers(summary: Summary, srcs: seq<CategorySource>)
    ensures |Kept(summary, srcs)| <= |srcs|
    ensures forall c :: c in Kept(summary, srcs) <==> exists k :: 0 <= k < |srcs| && Spending(summary, srcs[k]) == Some(c)
    decreases |srcs|
  {
    if srcs != [] {
      KeptMembers(summary, srcs[1..]);
      forall c ensures c in Kept(summary, srcs) <==> exists k :: 0 <= k < |srcs| && Spending(summary, srcs[k]) == Some(c) {
        if c in Kept(summary, srcs[1..]) {
          var k :| 0 <= k < |srcs[1..]| && Spending(summary, srcs[1..][k]) == Some(c);
          assert Spending(summary, srcs[k + 1]) == Some(c);
        }
        if exists k :: 0 <= k < |srcs| && Spending(summary, srcs[k]) == Some(c) {
          var k :| 0 <= k < |srcs| && Spending(summary, srcs[k]) == Some(c);
          if k > 0 {
            assert srcs[1..][k - 1] == srcs[k];
          }
        }
      }
    }
  }

  /** The ranking is a permutation of the kept categories, so it has their members and at most four rows. */
  lemma RankedMembers(summary: Summary)
    ensures |RankedCategories(summary)| <= 4
    ensures ShownCategories(summary) == RankedCategories(summary)
    ensures forall c :: c in RankedCategories(summary) <==>
      exists k :: 0 <= k < 4 && Spending(summary, Categories[k]) == Some(c)
  {
    KeptMembers(summary, Categories);
    SortMembers(Kept(summary, Categories), AmountOf);
  }

  /** Every row on screen has a positive amount. */
  lemma RankedPositive(summary: Summary)
    ensures forall c :: c in RankedCategories(summary) ==> c.amount > 0.0
  {
    RankedMembers(summary);
    forall c | c in RankedCategories(summary) ensures c.amount > 0.0 {
      var k :| 0 <= k < 4 && Spending(summary, Categories[k]) == Some(c);
    }
  }

  /** The "No spending data" branch is taken exactly when no declared category qualifies. */
  lemma NoSpendingDataIff(summary: Summary)
    ensures NoSpendingData(summary) <==> forall k :: 0 <= k < 4 ==> Spending(summary, Categories[k]).None?
  {
    var r := RankedCategories(summary);
    RankedMembers(summary);
    if !NoSpendingData(summary) {
      assert r[0] in r;
    }
  }

  // -------------------------------------------------------------- Soulmates

  /** `Object.entries(record || {})[0]`: the first entry, absent when the record is missing or empty. */
  function FirstEntry(record: Option<seq<Contact>>): (r: Option<Contact>)
    ensures r.Some? <==> record.Some? && |record.value| > 0
    ensures r.Some? ==> r.value == record.value[0]
  {
    match record
    case None => None
    case Some(entries) => if |entries| == 0 then None else Some(entries[0])
  }

  function TopSender(d: ParsedStatement): Option<Contact> {
    FirstEntry(if d.soulMates.Some? then d.soulMates.value.topSenders else None)
  }

  function TopReceiver(d: ParsedStatement): Option<Contact> {
    FirstEntry(if d.soulMates.Some? then d.soulMates.value.topReceivers else None)
  }

  /** The "No frequent contacts" branch. */
  predicate NoFrequentContacts(d: ParsedStatement) {
    TopSender(d).None? && TopReceiver(d).None?
  }

  predicate MissingOrEmpty(record: Option<seq<Contact>>) {
    record.None? || record.value == []
  }

  lemma NoFrequentContactsIff(d: ParsedStatement)
    ensures NoFrequentContacts(d) <==>
      d.soulMates.None? || (MissingOrEmpty(d.soulMates.value.topSenders) && MissingOrEmpty(d.soulMates.value.topReceivers))
  {
  }

  // ------------------------------------------------------------ Time of day

  datatype TimeSlot = TimeSlot(name: string, period: string, data: Bucket)

  /** The four slots in declaration order. */
  function Times(t: TimeOfDaySpending): seq<TimeSlot> {
    [ TimeSlot("Morning", "5AM - 12PM", t.morning),
      TimeSlot("Afternoon", "12PM - 5PM", t.afternoon),
      TimeSlot("Evening", "5PM - 9PM", t.evening),
      TimeSlot("Night", "9PM - 5AM", t.night) ]
  }

  function SlotAmount(x: TimeSlot): real {
    x.data.amount
  }

  /** The detail strip: the four slots after the stable descending sort, largest amount first. */
  function SortedTimes(t: TimeOfDaySpending): (r: seq<TimeSlot>)
    ensures |r| == 4
    ensures SortedDesc(r, SlotAmount)
    ensures multiset(r) == multiset(Times(t))
    ensures forall v :: WithKey(r, SlotAmount, v) == WithKey(Times(t), SlotAmount, v)
    ensures r[0] == TopTime(t)
  {
    forall v ensures WithKey(SortDesc(Times(t), SlotAmount), SlotAmount, v) == WithKey(Times(t), SlotAmount, v) {
      SortStable(Times(t), SlotAmount, v);
    }
    SortDesc(Times(t), SlotAmount)
  }

  /** `times[0]` after the stable descending sort: the earliest slot of largest amount. */
  function TopTime(t: TimeOfDaySpending): (top: TimeSlot)
    ensures top == Times(t)[EarliestMax(Times(t), SlotAmount)]
    ensures top in Times(t)
    ensures forall x :: x in Times(t) ==> x.data.amount <= top.data.amount
  {
    SortedHead(Times(t), SlotAmount)
  }

  /** Morning wins whenever no other slot has more, so all-zero amounts read as a Morning spender. */
  lemma MorningWinsTies(t: TimeOfDaySpending)
    requires t.afternoon.amount <= t.morning.amount
    requires t.evening.amount <= t.morning.amount
    requires t.night.amount <= t.morning.amount
    ensures TopTime(t).name == "Morning"
  {
    EarliestMaxFirst(Times(t), SlotAmount);
  }

  lemma TimeOfDayScenario()
    ensures TopTime(TimeOfDaySpending(Bucket(12, 6869.0), EmptyBucket, EmptyBucket, EmptyBucket)).name == "Morning"
  {
    MorningWinsTies(TimeOfDaySpending(Bucket(12, 6869.0), EmptyBucket, EmptyBucket, EmptyBucket));
  }

  // ---------------------------------------------------------------- Weekday

  datatype DayEntry = DayEntry(day: string, count: int, amount: real)

  /** `Object.entries(weekday_spending)`, Monday first. */
  function Days(w: WeekdaySpending): seq<DayEntry> {
    [ DayEntry("Monday", w.monday.count, w.monday.amount),
      DayEntry("Tuesday", w.tuesday.count, w.tuesday.amount),
      DayEntry("Wednesday", w.wednesday.count, w.wednesday.amount),
      DayEntry("Thursday", w.thursday.count, w.thursday.amount),
      DayEntry("Friday", w.friday.count, w.friday.amount),
      DayEntry("Saturday", w.saturday.count, w.saturday.amount),
      DayEntry("Sunday", w.sunday.count, w.sunday.amount) ]
  }

  function DayAmount(d: DayEntry): real {
    d.amount
  }

  function SortedDays(w: WeekdaySpending): (r: seq<DayEntry>)
    ensures |r| == 7
    ensures SortedDesc(r, DayAmount)
    ensures multiset(r) == multiset(Days(w))
    ensures forall v :: WithKey(r, DayAmount, v) == WithKey(Days(w), DayAmount, v)
  {
    forall v ensures WithKey(SortDesc(Days(w), DayAmount), DayAmount, v) == WithKey(Days(w), DayAmount, v) {
      SortStable(Days(w), DayAmount, v);
    }
    SortDesc(Days(w), DayAmount)
  }

  /** `days[0]`: the earliest day of largest amount. */
  function TopDay(w: WeekdaySpending): (top: DayEntry)
    ensures top == Days(w)[EarliestMax(Days(w), DayAmount)]
    ensures forall k :: 0 <= k < 7 ==> Days(w)[k].amount <= top.amount
  {
    SortedHead(Days(w), DayAmount)
  }

  /** `Math.max(...xs)` on a non-empty list. */
  function MaxOf(xs: seq<real>): (m: real)
    requires |xs| > 0
    ensures m in xs
    ensures forall k :: 0 <= k < |xs| ==> xs[k] <= m
  {
    if |xs| == 1 then xs[0]
    else
      var rest := MaxOf(xs[1..]);
      if xs[0] >= rest then xs[0] else rest
  }

  function Amounts(ds: seq<DayEntry>): (r: seq<real>)
    ensures |r| == |ds|
    ensures forall k :: 0 <= k < |ds| ==> r[k] == ds[k].amount
  {
    if ds == [] then [] else [ds[0].amount] + Amounts(ds[1..])
  }

  /** On a list sorted largest first, the maximum of the amounts is the head's amount. */
  lemma MaxOfSorted(ds: seq<DayEntry>)
    requires |ds| > 0 && SortedDesc(ds, DayAmount)
    ensures MaxOf(Amounts(ds)) == ds[0].amount
  {
    var m := MaxOf(Amounts(ds));
    var k :| 0 <= k < |ds| && Amounts(ds)[k] == m;
    assert DayAmount(ds[0]) >= DayAmount(ds[k]);
  }

  /** `maxAmount`, the largest of the sorted amounts. */
  function MaxAmount(w: WeekdaySpending): (m: real)
    ensures forall k :: 0 <= k < 7 ==> SortedDays(w)[k].amount <= m
    ensures m == SortedDays(w)[0].amount
  {
    var ds := SortedDays(w);
    MaxOfSorted(ds);
    MaxOf(Amounts(ds))
  }

  /** The maximum the bars are scaled by is the top day's amount. */
  lemma MaxAmountIsTop(w: WeekdaySpending)
    ensures MaxAmount(w) == TopDay(w).amount
    ensures forall k :: 0 <= k < 7 ==> Days(w)[k].amount <= MaxAmount(w)
  {
    MaxOfSorted(SortedDays(w));
  }

  /** A bar's width: its share of the maximum in percent, or 0 when the maximum is not positive. */
  function BarPercent(amount: real, max: real): (r: real)
    ensures max <= 0.0 ==> r == 0.0
    ensures max > 0.0 && 0.0 <= amount <= max ==> 0.0 <= r <= 100.0
    ensures max > 0.0 && amount == max ==> r == 100.0
  {
    if max > 0.0 then ShareBounded(amount, max); amount / max * 100.0 else 0.0
  }

  /** The bar widths of `ds` scaled by `m`, in the order of `ds`. */
  function BarsOf(ds: seq<DayEntry>, m: real): seq<real> {
    seq(|ds|, k requires 0 <= k < |ds| => BarPercent(ds[k].amount, m))
  }

  /** The seven bar widths, in sorted order. */
  function Bars(w: WeekdaySpending): seq<real> {
    BarsOf(SortedDays(w), MaxAmount(w))
  }

  predicate NonNegativeWeek(w: WeekdaySpending) {
    forall k :: 0 <= k < 7 ==> Days(w)[k].amount >= 0.0
  }

  lemma ShareBounded(a: real, m: real)
    requires m > 0.0
    ensures 0.0 <= a <= m ==> 0.0 <= a / m * 100.0 <= 100.0
    ensures a == m ==> a / m * 100.0 == 100.0
  {
    assert a / m * m == a;
  }

  /** Amounts between 0 and a positive maximum give bars between 0 and 100; a maximal amount a full bar. */
  lemma BarsOfBounded(ds: seq<DayEntry>, m: real)
    requires forall k :: 0 <= k < |ds| ==> 0.0 <= ds[k].amount <= m
    ensures forall k :: 0 <= k < |ds| ==> 0.0 <= BarsOf(ds, m)[k] <= 100.0
    ensures forall k :: 0 <= k < |ds| && m > 0.0 && ds[k].amount == m ==> BarsOf(ds, m)[k] == 100.0
  {
    forall k | 0 <= k < |ds|
      ensures 0.0 <= BarsOf(ds, m)[k] <= 100.0
      ensures m > 0.0 && ds[k].amount == m ==> BarsOf(ds, m)[k] == 100.0
    {
      if m > 0.0 {
        ShareBounded(ds[k].amount, m);
        assert m / m == 1.0;
      }
    }
  }

  /** Every sorted day lies between 0 and the maximum when no day is negative. */
  lemma SortedWithinMax(w: WeekdaySpending)
    requires NonNegativeWeek(w)
    ensures forall k :: 0 <= k < 7 ==> 0.0 <= SortedDays(w)[k].amount <= MaxAmount(w)
    ensures SortedDays(w)[0].amount == MaxAmount(w)
  {
    MaxAmountIsTop(w);
    MaxOfSorted(SortedDays(w));
    forall k | 0 <= k < 7 ensures 0.0 <= SortedDays(w)[k].amount <= MaxAmount(w) {
      var ds := SortedDays(w);
      assert ds[k] in multiset(Days(w));
      var j :| 0 <= j < 7 && Days(w)[j] == ds[k];
    }
  }

  /** For non-negative amounts every bar lies in [0, 100], and the top day's bar is full when anything was spent. */
  lemma BarsBounded(w: WeekdaySpending)
    requires NonNegativeWeek(w)
    ensures forall k :: 0 <= k < 7 ==> 0.0 <= Bars(w)[k] <= 100.0
    ensures MaxAmount(w) > 0.0 ==> Bars(w)[0] == 100.0
  {
    SortedWithinMax(w);
    BarsOfBounded(SortedDays(w), MaxAmount(w));
  }

  /** Monday wins whenever no other day has more. */
  lemma MondayWinsTies(w: WeekdaySpending)
    requires forall k :: 0 <= k < 7 ==> Days(w)[k].amount <= w.monday.amount
    ensures TopDay(w).day == "Monday"
  {
    var ds := Days(w);
    assert forall j :: 0 <= j < 7 ==> DayAmount(ds[j]) <= DayAmount(ds[0]);
    EarliestMaxFirst(ds, DayAmount);
  }

  /** A maximum of 0 draws every bar empty instead of dividing by it. */
  lemma ZeroMaxBars(w: WeekdaySpending)
    requires MaxAmount(w) == 0.0
    ensures forall k :: 0 <= k < 7 ==> Bars(w)[k] == 0.0
  {
  }

  /** With nothing spent on any day the maximum is 0, every bar is empty and Monday is the top day. */
  lemma NoSpendingWeek(w: WeekdaySpending)
    requires forall k :: 0 <= k < 7 ==> Days(w)[k].amount == 0.0
    ensures MaxAmount(w) == 0.0
    ensures forall k :: 0 <= k < 7 ==> Bars(w)[k] == 0.0
    ensures TopDay(w).day == "Monday"
  {
    MaxAmountIsTop(w);
    ZeroMaxBars(w);
    MondayWinsTies(w);
  }

  // ------------------------------------------------------ Weekday / weekend

  /** `weekdayPercent`: the weekday share of the total in percent, 50 when the total is not positive. */
  function WeekdayPercent(s: DayVsWeekendSpending): (r: real)
    ensures s.weekday.amount + s.weekend.amount <= 0.0 ==> r == 50.0
    ensures s.weekday.amount >= 0.0 && s.weekend.amount >= 0.0 ==> 0.0 <= r <= 100.0
    ensures s.weekend.amount == 0.0 && s.weekday.amount > 0.0 ==> r == 100.0
  {
    var total := s.weekday.amount + s.weekend.amount;
    if total > 0.0 then ShareBounded(s.weekday.amount, total); s.weekday.amount / total * 100.0 else 50.0
  }

  function WeekendPercent(s: DayVsWeekendSpending): real {
    100.0 - WeekdayPercent(s)
  }

  /** The closing line reads "weekdays" only when the weekday share is above half. */
  predicate MoreOnWeekdays(s: DayVsWeekendSpending) {
    WeekdayPercent(s) > 50.0
  }

  lemma SplitProperties(s: DayVsWeekendSpending)
    ensures WeekdayPercent(s) + WeekendPercent(s) == 100.0
    ensures s.weekday.amount + s.weekend.amount <= 0.0 ==> WeekdayPercent(s) == 50.0 && !MoreOnWeekdays(s)
    ensures s.weekday.amount >= 0.0 && s.weekend.amount >= 0.0 ==>
      0.0 <= WeekdayPercent(s) <= 100.0 && 0.0 <= WeekendPercent(s) <= 100.0
  {
  }

  /** Multiplying by a positive number keeps a strict comparison. */
  lemma MulGreater(x: real, y: real, t: real)
    requires t > 0.0 && x > y
    ensures x * t > y * t
  {
    assert (x - y) * t > 0.0;
  }

  /** Dividing by a positive total preserves the comparison with a threshold. */
  lemma DivGreater(a: real, t: real, c: real)
    requires t > 0.0
    ensures a / t > c <==> a > c * t
  {
    var p := a / t;
    assert p * t == a;
    if p > c {
      MulGreater(p, c, t);
    }
    if a > c * t && p < c {
      MulGreater(c, p, t);
    }
  }

  /** For non-negative amounts the slide says "weekdays" exactly when weekdays took strictly more; a tie reads "weekends". */
  lemma MoreOnWeekdaysIff(s: DayVsWeekendSpending)
    requires s.weekday.amount >= 0.0 && s.weekend.amount >= 0.0
    ensures MoreOnWeekdays(s) <==> s.weekday.amount > s.weekend.amount
  {
    var a, b := s.weekday.amount, s.weekend.amount;
    var total := a + b;
    if total > 0.0 {
      assert a / total * 100.0 > 50.0 <==> a / total > 0.5;
      DivGreater(a, total, 0.5);
    }
  }

  // ------------------------------------------------------------------ Final

  /** The closing slide's figures: the number of transactions and the period line the intro slide shows too. */
  datatype Closing = Closing(total: nat, period: string)

  function ClosingOf(d: ParsedStatement): (c: Closing)
    ensures c.total == |d.transactions|
    ensures StartsWith(c.period, d.statementBeginDate)
    ensures |c.period| == |d.statementBeginDate| + 3 + |d.statementEndDate|
    ensures c.period[|d.statementBeginDate|..|d.statementBeginDate| + 3] == " - "
    ensures c.period[|d.statementBeginDate| + 3..] == d.statementEndDate
  {
    var period := d.statementBeginDate + " - " + d.statementEndDate;
    assert period[..|d.statementBeginDate|] == d.statementBeginDate;
    assert period[|d.statementBeginDate|..|d.statementBeginDate| + 3] == " - ";
    assert period[|d.statementBeginDate| + 3..] == d.statementEndDate;
    Closing(|d.transactions|, period)
  }
}
