/**
 * The backend's aggregations over the parsed transactions (api/app.py):
 * spending by weekday versus weekend, by day of the week and by time of
 * day, and the "soulmates", the counterparties that sent the most money and
 * received the most. Each Python loop over `transactions` is a method whose
 * loop invariant ties its counters to a function of the transactions read so
 * far; the lemmas relate those functions to each other.
 */
module App {
  import opened Wrappers
  import opened Text
  import opened Ranking
  import opened Statement

  // ------------------------------------------------------------ Time stamps

  /** `date.weekday()`: Monday is 0 and Sunday is 6. */
  type Weekday = d: int | 0 <= d < 7

  type Hour = h: int | 0 <= h < 24

  /** What `strptime(completion_time, "%Y-%m-%d %H:%M:%S")` yields that the aggregations read. */
  datatype Moment = Moment(weekday: Weekday, hour: Hour)

  /** `strptime` on a completion time; None where it raises ValueError. */
  type Clock = string -> Option<Moment>

  // -------------------------------------------------------- Amount strings

  /** `s.replace(",", "").replace("-", "").strip()`. */
  function CleanAmount(s: string): (r: string)
    ensures ',' !in r && '-' !in r
    ensures r == [] || (!IsSpace(r[0]) && !IsSpace(r[|r| - 1]))
  {
    var t := RemoveAll(RemoveAll(s, ','), '-');
    TrimChars(t);
    Trim(t)
  }

  /**
   * The cleaned amount as a number: None when it is empty (the `if amount_str`
   * test) or `float` rejects it. An empty string is no numeral, so the one
   * conversion covers both.
   */
  function Amount(s: string): (r: Option<real>)
    ensures r.Some? <==> IsNumeral(CleanAmount(s))
    ensures CleanAmount(s) == "" ==> r.None?
    ensures r.Some? ==> r.value >= 0.0
  {
    ParseDecimal(CleanAmount(s))
  }

  /** A string made only of commas, dashes and whitespace is no amount at all. */
  lemma BlankAmount(s: string)
    requires forall k :: 0 <= k < |s| ==> s[k] == ',' || s[k] == '-' || IsSpace(s[k])
    ensures CleanAmount(s) == ""
    ensures Amount(s) == None
  {
    var t := RemoveAll(RemoveAll(s, ','), '-');
    forall k | 0 <= k < |t| ensures IsSpace(t[k]) {
      assert t[k] in t;
      var j :| 0 <= j < |s| && s[j] == t[k];
    }
  }

  /** The sign is dropped: a withdrawal shown as `"-1,250.00"` reads as the amount `"1250.00"`. */
  lemma SignDropped(s: string)
    ensures CleanAmount("-" + s) == CleanAmount(s)
  {
    var t := RemoveAll(s, ',');
    assert ("-" + s)[1..] == s;
    assert RemoveAll("-" + s, ',') == "-" + t;
    assert ("-" + t)[1..] == t;
    assert RemoveAll("-" + t, '-') == RemoveAll(t, '-');
  }

  /** A withdrawal already free of commas, dashes and surrounding whitespace is left as it is. */
  lemma CleanNumeral(s: string)
    requires ',' !in s && '-' !in s
    requires s == [] || (!IsSpace(s[0]) && !IsSpace(s[|s| - 1]))
    ensures CleanAmount(s) == s
  {
  }

  /** The thousands separator is dropped: the digits on both sides of a comma are read as one number. */
  lemma CommaDropped(a: string, b: string)
    ensures CleanAmount(a + "," + b) == CleanAmount(a + b)
  {
    DropOne(a, b, ',');
    var t := RemoveAll(RemoveAll(a + b, ','), '-');
    assert RemoveAll(RemoveAll(a + "," + b, ','), '-') == t;
  }

  /** An amount in the thousands as the statement prints it, such as `"7,233.00"`, reads as its four digits. */
  lemma ThousandsAmount(s: string)
    requires ThousandsShape(s)
    ensures Amount(s) == Some(FourDigits(s[0], s[2], s[3], s[4]) as real)
  {
    ThousandsUncomma(s);
    ThousandsValue(s);
    var t := s[..1] + s[2..];
    CleanNumeral(t);
  }

  /** A withdrawal of `"7,233.00"` reads as the amount 7233. */
  lemma StatementAmount(s: string)
    requires s == "7,233.00"
    ensures Amount(s) == Some(7233.0)
  {
    StatementShapes(s);
    ThousandsAmount(s);
  }

  // ------------------------------------------------- Weekday and weekend

  /** A withdrawal the weekday functions count: its time parses and its amount is a number. */
  datatype Spend = Spend(day: Weekday, amount: real)

  /** The `try` block of the weekday loops: parse the time, clean the amount, skip it when empty, convert it. */
  function SpendOf(tx: Transaction, clock: Clock): (r: Option<Spend>)
    ensures r.Some? <==> clock(tx.completionTime).Some? && Amount(tx.withdrawn).Some?
    ensures r.Some? ==> r.value.day == clock(tx.completionTime).value.weekday && r.value.amount >= 0.0
  {
    match clock(tx.completionTime)
    case None => None
    case Some(m) =>
      match Amount(tx.withdrawn)
      case None => None
      case Some(a) => Some(Spend(m.weekday, a))
  }

  function AddTo(b: Bucket, amount: real): Bucket {
    Bucket(b.count + 1, b.amount + amount)
  }

  function Plus(a: Bucket, b: Bucket): Bucket {
    Bucket(a.count + b.count, a.amount + b.amount)
  }

  /** One step of a weekday loop: a counted withdrawal on a day in `[lo, hi)` goes into the bucket. */
  function Count(b: Bucket, spend: Option<Spend>, lo: int, hi: int): Bucket {
    match spend
    case None => b
    case Some(sp) => if lo <= sp.day < hi then AddTo(b, sp.amount) else b
  }

  /** The bucket of the counted withdrawals whose weekday lies in `[lo, hi)`, read in order. */
  function DayRange(txs: seq<Transaction>, clock: Clock, lo: int, hi: int): Bucket
    decreases |txs|
  {
    if txs == [] then EmptyBucket
    else Count(DayRange(txs[..|txs| - 1], clock, lo, hi), SpendOf(txs[|txs| - 1], clock), lo, hi)
  }

  lemma DayRangeStep(txs: seq<Transaction>, i: nat, clock: Clock, lo: int, hi: int)
    requires i < |txs|
    ensures DayRange(txs[..i + 1], clock, lo, hi) == Count(DayRange(txs[..i], clock, lo, hi), SpendOf(txs[i], clock), lo, hi)
  {
    assert txs[..i + 1][..i] == txs[..i];
  }

  /** The counted withdrawals, in order. */
  function Spends(txs: seq<Transaction>, clock: Clock): seq<Spend>
    decreases |txs|
  {
    if txs == [] then []
    else
      Spends(txs[..|txs| - 1], clock) +
      match SpendOf(txs[|txs| - 1], clock) case None => [] case Some(sp) => [sp]
  }

  /** The transactions whose completion time parses. */
  function Visits(txs: seq<Transaction>, clock: Clock): nat
    decreases |txs|
  {
    if txs == [] then 0
    else Visits(txs[..|txs| - 1], clock) + if clock(txs[|txs| - 1].completionTime).Some? then 1 else 0
  }

  lemma CountSplit(a: Bucket, b: Bucket, spend: Option<Spend>, lo: int, mid: int, hi: int)
    requires lo <= mid <= hi
    ensures Count(Plus(a, b), spend, lo, hi) == Plus(Count(a, spend, lo, mid), Count(b, spend, mid, hi))
  {
  }

  /** Adjacent weekday ranges add up. */
  lemma {:induction false} DayRangeSplit(txs: seq<Transaction>, clock: Clock, lo: int, mid: int, hi: int)
    requires lo <= mid <= hi
    ensures DayRange(txs, clock, lo, hi) == Plus(DayRange(txs, clock, lo, mid), DayRange(txs, clock, mid, hi))
    decreases |txs|
  {
    if txs != [] {
      var prefix, spend := txs[..|txs| - 1], SpendOf(txs[|txs| - 1], clock);
      DayRangeSplit(prefix, clock, lo, mid, hi);
      CountSplit(DayRange(prefix, clock, lo, mid), DayRange(prefix, clock, mid, hi), spend, lo, mid, hi);
    }
  }

  /** The whole week counts every counted withdrawal once, and no transaction without a parsed time. */
  lemma {:induction false} WholeWeek(txs: seq<Transaction>, clock: Clock)
    ensures DayRange(txs, clock, 0, 7).count == |Spends(txs, clock)|
    ensures |Spends(txs, clock)| <= Visits(txs, clock) <= |txs|
    decreases |txs|
  {
    if txs != [] {
      WholeWeek(txs[..|txs| - 1], clock);
    }
  }

  /** Every bucket is a non-negative count of non-negative amounts. */
  lemma {:induction false} DayRangeNonNegative(txs: seq<Transaction>, clock: Clock, lo: int, hi: int)
    ensures DayRange(txs, clock, lo, hi).count >= 0 && DayRange(txs, clock, lo, hi).amount >= 0.0
    decreases |txs|
  {
    if txs != [] {
      DayRangeNonNegative(txs[..|txs| - 1], clock, lo, hi);
    }
  }

  /** The body of the weekday-versus-weekend loop for one transaction. */
  method SplitStep(weekday: Bucket, weekend: Bucket, spend: Option<Spend>) returns (weekday': Bucket, weekend': Bucket)
    ensures weekday' == Count(weekday, spend, 0, 5)
    ensures weekend' == Count(weekend, spend, 5, 7)
  {
    weekday', weekend' := weekday, weekend;
    if spend.Some? {
      var amount := spend.value.amount;
      if spend.value.day < 5 {
        weekday' := Bucket(weekday.count + 1, weekday.amount + amount);
      } else {
        weekend' := Bucket(weekend.count + 1, weekend.amount + amount);
      }
    }
  }

  /** `weekday_vs_weekend_spending`: weekday index below 5 is a weekday, the rest is the weekend. */
  method WeekdayVsWeekendSpending(txs: seq<Transaction>, clock: Clock) returns (r: DayVsWeekendSpending)
    ensures r.weekday == DayRange(txs, clock, 0, 5)
    ensures r.weekend == DayRange(txs, clock, 5, 7)
  {
    var weekday, weekend := EmptyBucket, EmptyBucket;
    var i := 0;
    while i < |txs|
      invariant 0 <= i <= |txs|
      invariant weekday == DayRange(txs[..i], clock, 0, 5)
      invariant weekend == DayRange(txs[..i], clock, 5, 7)
    {
      DayRangeStep(txs, i, clock, 0, 5);
      DayRangeStep(txs, i, clock, 5, 7);
      weekday, weekend := SplitStep(weekday, weekend, SpendOf(txs[i], clock));
      i := i + 1;
    }
    assert txs[..|txs|] == txs;
    r := DayVsWeekendSpending(weekday, weekend);
  }

  /** The bucket of the single weekday `d`. */
  function DayBucket(txs: seq<Transaction>, clock: Clock, d: int): Bucket {
    DayRange(txs, clock, d, d + 1)
  }

  /** The body of the per-weekday loop for one transaction. */
  method CountDay(days: array<Bucket>, spend: Option<Spend>)
    requires days.Length == 7
    modifies days
    ensures forall k :: 0 <= k < 7 ==> days[k] == Count(old(days[k]), spend, k, k + 1)
  {
    if spend.Some? {
      var day := spend.value.day;
      days[day] := Bucket(days[day].count + 1, days[day].amount + spend.value.amount);
    }
  }

  /** `figure_weekday_spending`: one bucket per weekday, all seven always present. */
  method FigureWeekdaySpending(txs: seq<Transaction>, clock: Clock) returns (r: WeekdaySpending)
    ensures r.monday == DayBucket(txs, clock, 0)
    ensures r.tuesday == DayBucket(txs, clock, 1)
    ensures r.wednesday == DayBucket(txs, clock, 2)
    ensures r.thursday == DayBucket(txs, clock, 3)
    ensures r.friday == DayBucket(txs, clock, 4)
    ensures r.saturday == DayBucket(txs, clock, 5)
    ensures r.sunday == DayBucket(txs, clock, 6)
  {
    var days := new Bucket[7](_ => EmptyBucket);
    var i := 0;
    while i < |txs|
      invariant 0 <= i <= |txs|
      invariant forall k :: 0 <= k < 7 ==> days[k] == DayBucket(txs[..i], clock, k)
    {
      forall k | 0 <= k < 7
        ensures DayBucket(txs[..i + 1], clock, k) == Count(DayBucket(txs[..i], clock, k), SpendOf(txs[i], clock), k, k + 1)
      {
        DayRangeStep(txs, i, clock, k, k + 1);
      }
      CountDay(days, SpendOf(txs[i], clock));
      i := i + 1;
    }
    assert txs[..|txs|] == txs;
    r := WeekdaySpending(days[0], days[1], days[2], days[3], days[4], days[5], days[6]);
  }

  /** The per-day buckets of a week. */
  function WeekOf(txs: seq<Transaction>, clock: Clock): WeekdaySpending {
    WeekdaySpending(
      DayBucket(txs, clock, 0), DayBucket(txs, clock, 1), DayBucket(txs, clock, 2),
      DayBucket(txs, clock, 3), DayBucket(txs, clock, 4), DayBucket(txs, clock, 5),
      DayBucket(txs, clock, 6))
  }

  /**
   * Both functions count the same withdrawals: Monday to Friday add up to the
   * weekday bucket and Saturday and Sunday to the weekend bucket, and the two
   * counts together are every counted withdrawal.
   */
  lemma WeekdaysMakeUpSplit(txs: seq<Transaction>, clock: Clock)
    ensures var w := WeekOf(txs, clock);
      Plus(Plus(Plus(Plus(w.monday, w.tuesday), w.wednesday), w.thursday), w.friday) == DayRange(txs, clock, 0, 5)
    ensures var w := WeekOf(txs, clock);
      Plus(w.saturday, w.sunday) == DayRange(txs, clock, 5, 7)
    ensures DayRange(txs, clock, 0, 5).count + DayRange(txs, clock, 5, 7).count == |Spends(txs, clock)|
  {
    DayRangeSplit(txs, clock, 0, 1, 2);
    DayRangeSplit(txs, clock, 0, 2, 3);
    DayRangeSplit(txs, clock, 0, 3, 4);
    DayRangeSplit(txs, clock, 0, 4, 5);
    DayRangeSplit(txs, clock, 5, 6, 7);
    DayRangeSplit(txs, clock, 0, 5, 7);
    WholeWeek(txs, clock);
  }

  /** No day of the backend's week has a negative amount. */
  lemma WeekNonNegative(txs: seq<Transaction>, clock: Clock)
    ensures var w := WeekOf(txs, clock);
      w.monday.amount >= 0.0 && w.tuesday.amount >= 0.0 && w.wednesday.amount >= 0.0 &&
      w.thursday.amount >= 0.0 && w.friday.amount >= 0.0 && w.saturday.amount >= 0.0 &&
      w.sunday.amount >= 0.0
  {
    DayRangeNonNegative(txs, clock, 0, 1);
    DayRangeNonNegative(txs, clock, 1, 2);
    DayRangeNonNegative(txs, clock, 2, 3);
    DayRangeNonNegative(txs, clock, 3, 4);
    DayRangeNonNegative(txs, clock, 4, 5);
    DayRangeNonNegative(txs, clock, 5, 6);
    DayRangeNonNegative(txs, clock, 6, 7);
  }

  // ------------------------------------------------------------ Time of day

  /** Morning is 5 to 12, afternoon 12 to 17, evening 17 to 21, night every other hour. */
  function SlotOf(h: Hour): (slot: nat)
    ensures slot < 4
    ensures slot == 0 <==> 5 <= h < 12
    ensures slot == 1 <==> 12 <= h < 17
    ensures slot == 2 <==> 17 <= h < 21
    ensures slot == 3 <==> h < 5 || 21 <= h
  {
    if 5 <= h < 12 then 0
    else if 12 <= h < 17 then 1
    else if 17 <= h < 21 then 2
    else 3
  }

  /** From five in the morning the slots follow the clock; Night runs from nine in the evening over midnight to five. */
  lemma SlotOrder(h: Hour, h': Hour)
    ensures 5 <= h <= h' ==> SlotOf(h) <= SlotOf(h')
    ensures SlotOf(h) == 3 <==> h < 5 || 21 <= h
  {
  }

  /** What a transaction adds to its slot's amount: its withdrawal, or nothing when that is no amount. */
  function AmountOrZero(s: string): (a: real)
    ensures a >= 0.0
    ensures Amount(s).None? ==> a == 0.0
    ensures Amount(s).Some? ==> a == Amount(s).value
  {
    match Amount(s) case None => 0.0 case Some(v) => v
  }

  /** One step of the time-of-day loop: a transaction whose time parses into `slot` counts, whatever its amount. */
  function Place(b: Bucket, moment: Option<Moment>, withdrawn: string, slot: nat): Bucket {
    match moment
    case None => b
    case Some(m) => if SlotOf(m.hour) == slot then AddTo(b, AmountOrZero(withdrawn)) else b
  }

  /** The bucket of time slot `slot` after reading `txs` in order. */
  function SlotBucket(txs: seq<Transaction>, clock: Clock, slot: nat): Bucket
    decreases |txs|
  {
    if txs == [] then EmptyBucket
    else
      var tx := txs[|txs| - 1];
      Place(SlotBucket(txs[..|txs| - 1], clock, slot), clock(tx.completionTime), tx.withdrawn, slot)
  }

  lemma SlotBucketStep(txs: seq<Transaction>, i: nat, clock: Clock, slot: nat)
    requires i < |txs|
    ensures SlotBucket(txs[..i + 1], clock, slot) == Place(SlotBucket(txs[..i], clock, slot), clock(txs[i].completionTime), txs[i].withdrawn, slot)
  {
    assert txs[..i + 1][..i] == txs[..i];
  }

  /**
   * The body of the time-of-day loop for a transaction at `hour` whose
   * withdrawal converts to `amount`: the count goes up before the amount is
   * read, so a conversion that fails still leaves the transaction counted.
   */
  method CountVisit(slots: array<Bucket>, hour: Hour, amount: Option<real>)
    requires slots.Length == 4
    modifies slots
    ensures forall k :: 0 <= k < 4 ==>
      slots[k] == if k == SlotOf(hour) then AddTo(old(slots[k]), match amount case None => 0.0 case Some(v) => v) else old(slots[k])
  {
    var slot;
    if 5 <= hour < 12 {
      slot := 0;
    } else if 12 <= hour < 17 {
      slot := 1;
    } else if 17 <= hour < 21 {
      slot := 2;
    } else {
      slot := 3;
    }
    slots[slot] := Bucket(slots[slot].count + 1, slots[slot].amount);
    if amount.Some? {
      slots[slot] := Bucket(slots[slot].count, slots[slot].amount + amount.value);
    }
  }

  /** `figure_time_of_day`: every transaction whose time parses is counted in the slot of its hour. */
  method FigureTimeOfDay(txs: seq<Transaction>, clock: Clock) returns (r: TimeOfDaySpending)
    ensures r.morning == SlotBucket(txs, clock, 0)
    ensures r.afternoon == SlotBucket(txs, clock, 1)
    ensures r.evening == SlotBucket(txs, clock, 2)
    ensures r.night == SlotBucket(txs, clock, 3)
  {
    var slots := new Bucket[4](_ => EmptyBucket);
    var i := 0;
    while i < |txs|
      invariant 0 <= i <= |txs|
      invariant forall k :: 0 <= k < 4 ==> slots[k] == SlotBucket(txs[..i], clock, k)
    {
      forall k | 0 <= k < 4
        ensures SlotBucket(txs[..i + 1], clock, k) == Place(SlotBucket(txs[..i], clock, k), clock(txs[i].completionTime), txs[i].withdrawn, k)
      {
        SlotBucketStep(txs, i, clock, k);
      }
      var tx := txs[i];
      var parsed := clock(tx.completionTime);
      if parsed.Some? {
        CountVisit(slots, parsed.value.hour, Amount(tx.withdrawn));
      }
      i := i + 1;
    }
    assert txs[..|txs|] == txs;
    r := TimeOfDaySpending(slots[0], slots[1], slots[2], slots[3]);
  }

  /**
   * Each transaction whose time parses lands in exactly one slot, so the four
   * counts add up to those transactions, which are at least as many as the
   * weekday functions count.
   */
  lemma {:induction false} SlotsCoverVisits(txs: seq<Transaction>, clock: Clock)
    ensures SlotBucket(txs, clock, 0).count + SlotBucket(txs, clock, 1).count +
      SlotBucket(txs, clock, 2).count + SlotBucket(txs, clock, 3).count == Visits(txs, clock)
    ensures DayRange(txs, clock, 0, 7).count <= Visits(txs, clock)
    decreases |txs|
  {
    if txs != [] {
      SlotsCoverVisits(txs[..|txs| - 1], clock);
    }
    WholeWeek(txs, clock);
  }

  /**
   * A transaction whose time parses but whose withdrawal is no amount changes
   * no weekday bucket, yet adds one to the count of its time slot and nothing
   * to that slot's amount.
   */
  lemma UnreadableAmount(txs: seq<Transaction>, tx: Transaction, clock: Clock, lo: int, hi: int)
    requires clock(tx.completionTime).Some? && Amount(tx.withdrawn).None?
    ensures DayRange(txs + [tx], clock, lo, hi) == DayRange(txs, clock, lo, hi)
    ensures var slot := SlotOf(clock(tx.completionTime).value.hour);
      SlotBucket(txs + [tx], clock, slot) == Bucket(SlotBucket(txs, clock, slot).count + 1, SlotBucket(txs, clock, slot).amount)
  {
    assert (txs + [tx])[..|txs + [tx]| - 1] == txs;
  }

  // -------------------------------------------------------------- Soulmates

  /** Money received, money sent, or neither. */
  datatype Role = Receipt | Transfer | Unrelated

  /** "funds received from" contains "received from". */
  lemma FundsReceivedFrom(s: string)
    requires Contains(s, "funds received from")
    ensures Contains(s, "received from")
  {
    var i := IndexOf(s, "funds received from").value;
    assert s[i + 6..i + 19] == s[i..i + 19][6..];
    assert OccursAt(s, "received from", i + 6);
    ContainsAt(s, "received from", i + 6);
  }

  /**
   * The phrase tests on the lower-cased details. The first test's "funds
   * received from" is subsumed by "received from", and a received phrase wins
   * over a sent one.
   */
  function RoleOf(details: string): (r: Role)
    ensures r == Receipt <==> Contains(ToLower(details), "received from")
    ensures r == Transfer <==>
      !Contains(ToLower(details), "received from") &&
      (Contains(ToLower(details), "customer transfer to") || Contains(ToLower(details), "send money to"))
  {
    var lower := ToLower(details);
    if Contains(lower, "funds received from") then FundsReceivedFrom(lower); Receipt
    else if Contains(lower, "received from") then Receipt
    else if Contains(lower, "customer transfer to") || Contains(lower, "send money to") then Transfer
    else Unrelated
  }

  /** The phone key and the display name of a counterparty. */
  datatype Party = Party(key: string, name: string)

  /**
   * The text after the first `" - "`, trimmed, split once on a space: the
   * first token is the key and the trimmed rest the name, or the key again
   * when there is no rest.
   */
  function Counterparty(details: string): (r: Option<Party>)
    ensures r.Some? <==> Contains(details, " - ")
    ensures r.Some? ==> ' ' !in r.value.key
    ensures r.Some? ==> r.value.key == [] || (!IsSpace(r.value.key[0]) && !IsSpace(r.value.key[|r.value.key| - 1]))
    ensures r.Some? ==> var info := Trim(SplitOnce(details, " - ")[1]);
      (' ' !in info ==> r.value.key == info && r.value.name == info)
    ensures r.Some? ==> var info := Trim(SplitOnce(details, " - ")[1]);
      (' ' in info ==> var parts := SplitOnce(info, " ");
        r.value.key == Trim(parts[0]) && r.value.name == Trim(parts[1]))
  {
    if !Contains(details, " - ") then None
    else
      var info := Trim(SplitOnce(details, " - ")[1]);
      var parts := SplitOnce(info, " ");
      var key := Trim(parts[0]);
      SpaceSplit(info);
      TrimOmits(parts[0], ' ');
      Some(Party(key, if |parts| > 1 then Trim(parts[1]) else key))
  }

  /** A string with a space contains `" "`. */
  lemma SpaceContains(s: string)
    requires ' ' in s
    ensures Contains(s, " ")
  {
    var j :| 0 <= j < |s| && s[j] == ' ';
    assert s[j..j + 1] == " ";
    ContainsAt(s, " ", j);
  }

  /** Splitting once on a space leaves a first piece without one, two pieces exactly when there is a space, and a string without one whole. */
  lemma SpaceSplit(info: string)
    ensures ' ' !in SplitOnce(info, " ")[0]
    ensures |SplitOnce(info, " ")| == 2 <==> ' ' in info
    ensures ' ' !in info ==> SplitOnce(info, " ") == [info]
  {
    if ' ' in info {
      SpaceContains(info);
    } else {
      NoSpace(info);
    }
    var parts := SplitOnce(info, " ");
    if ' ' !in info {
      assert Join(parts, " ") == info;
    }
    if ' ' in parts[0] {
      var j :| 0 <= j < |parts[0]| && parts[0][j] == ' ';
      assert parts[0][j..j + 1] == " ";
      ContainsAt(parts[0], " ", j);
    }
  }

  /**
   * The inverse of the extraction: details made of a description, `" - "`,
   * a key without whitespace, a space and an unpadded name give back that key
   * and that name.
   */
  lemma CounterpartyOf(head: string, key: string, name: string)
    requires !Contains(head + " -", " - ")
    requires key != [] && forall k :: 0 <= k < |key| ==> !IsSpace(key[k])
    requires name != [] && Unpadded(name)
    ensures Counterparty(head + " - " + key + " " + name) == Some(Party(key, name))
  {
    var rest := key + " " + name;
    assert head + " - " + key + " " + name == head + " - " + rest;
    assert rest[0] == key[0] && rest[|rest| - 1] == name[|name| - 1];
    AfterDash(head, rest);
    KeySplit(key, name);
  }

  /** The remainder after the first `" - "`, when it is unpadded, is what extraction reads. */
  lemma AfterDash(head: string, rest: string)
    requires !Contains(head + " -", " - ")
    requires Unpadded(rest)
    ensures SplitOnce(head + " - " + rest, " - ") == [head, rest]
    ensures Contains(head + " - " + rest, " - ")
    ensures Trim(SplitOnce(head + " - " + rest, " - ")[1]) == rest
  {
    assert " - "[..2] == " -";
    SplitOnceAt(head, " - ", rest);
  }

  /** A key without whitespace, a space and an unpadded name split back into the two. */
  lemma KeySplit(key: string, name: string)
    requires key != [] && forall k :: 0 <= k < |key| ==> !IsSpace(key[k])
    requires name != [] && Unpadded(name)
    ensures ' ' in key + " " + name
    ensures SplitOnce(key + " " + name, " ") == [key, name]
    ensures Trim(key) == key && Trim(name) == name
  {
    assert (key + " " + name)[|key|] == ' ';
    NoKeySpace(key);
    NoSpace(key);
    assert key + " "[..0] == key;
    SplitOnceAt(key, " ", name);
  }

  lemma NoKeySpace(key: string)
    requires key != [] && forall k :: 0 <= k < |key| ==> !IsSpace(key[k])
    ensures ' ' !in key && Trim(key) == key
  {
    assert !IsSpace(key[0]) && !IsSpace(key[|key| - 1]);
    forall k | 0 <= k < |key| ensures key[k] != ' ' { assert !IsSpace(key[k]); }
  }

  /** A key alone after `" - "` is both the key and the name. */
  lemma CounterpartyKeyOnly(head: string, key: string)
    requires !Contains(head + " -", " - ")
    requires key != [] && forall k :: 0 <= k < |key| ==> !IsSpace(key[k])
    ensures Counterparty(head + " - " + key) == Some(Party(key, key))
  {
    NoKeySpace(key);
    AfterDash(head, key);
  }

  /** A transaction that feeds a soulmate record: its role, counterparty and amount. */
  datatype Entry = Entry(role: Role, party: Party, amount: real)

  /** The paid-in amount counts for money received and the withdrawn amount for money sent. */
  function EntryOf(tx: Transaction): (r: Option<Entry>)
    ensures r.Some? <==>
      RoleOf(tx.details) != Unrelated && Contains(tx.details, " - ") &&
      Amount(if RoleOf(tx.details) == Receipt then tx.paidIn else tx.withdrawn).Some?
    ensures r.Some? ==> r.value.role == RoleOf(tx.details) && r.value.amount >= 0.0 && ' ' !in r.value.party.key
    ensures r.Some? ==> Counterparty(tx.details) == Some(r.value.party)
    ensures r.Some? ==> Amount(if r.value.role == Receipt then tx.paidIn else tx.withdrawn) == Some(r.value.amount)
  {
    var role := RoleOf(tx.details);
    if role == Unrelated then None
    else
      match Counterparty(tx.details)
      case None => None
      case Some(p) =>
        match Amount(if role == Receipt then tx.paidIn else tx.withdrawn)
        case None => None
        case Some(a) => Some(Entry(role, p, a))
  }

  /** `sender_dict` or `receiver_dict`: the keys in insertion order and the record of each. */
  datatype Ledger = Ledger(keys: seq<string>, mates: map<string, SoulMate>)

  const EmptyLedger := Ledger([], map[])

  /** Distinct keys, exactly the keys of the map. */
  ghost predicate ValidLedger(l: Ledger) {
    && (forall i, j :: 0 <= i < j < |l.keys| ==> l.keys[i] != l.keys[j])
    && (forall k :: k in l.mates <==> k in l.keys)
  }

  /** One update of the dictionary: a known key adds to its record, a new key starts one with count 1. */
  function Record(l: Ledger, p: Party, amount: real): Ledger {
    if p.key in l.mates then
      var m := l.mates[p.key];
      Ledger(l.keys, l.mates[p.key := SoulMate(m.name, m.totalAmount + amount, m.count + 1)])
    else
      Ledger(l.keys + [p.key], l.mates[p.key := SoulMate(p.name, amount, 1)])
  }

  /** One step of the soulmate loop on the dictionary of `role`. */
  function Post(l: Ledger, entry: Option<Entry>, role: Role): Ledger {
    match entry
    case None => l
    case Some(e) => if e.role == role then Record(l, e.party, e.amount) else l
  }

  /** The dictionary of `role` after reading `txs` in order. */
  function Tally(txs: seq<Transaction>, role: Role): Ledger
    decreases |txs|
  {
    if txs == [] then EmptyLedger
    else Post(Tally(txs[..|txs| - 1], role), EntryOf(txs[|txs| - 1]), role)
  }

  lemma TallyStep(txs: seq<Transaction>, i: nat, role: Role)
    requires i < |txs|
    ensures Tally(txs[..i + 1], role) == Post(Tally(txs[..i], role), EntryOf(txs[i]), role)
  {
    assert txs[..i + 1][..i] == txs[..i];
  }

  /** The entry, when it is one of `role` for counterparty `key`. */
  function Matching(entry: Option<Entry>, role: Role, key: string): seq<Entry> {
    match entry
    case None => []
    case Some(e) => if e.role == role && e.party.key == key then [e] else []
  }

  /** The entries of `role` for counterparty `key`, in order. */
  function Contributions(txs: seq<Transaction>, role: Role, key: string): seq<Entry>
    decreases |txs|
  {
    if txs == [] then []
    else Contributions(txs[..|txs| - 1], role, key) + Matching(EntryOf(txs[|txs| - 1]), role, key)
  }

  function TotalOf(es: seq<Entry>): real
    decreases |es|
  {
    if es == [] then 0.0 else TotalOf(es[..|es| - 1]) + es[|es| - 1].amount
  }

  /** The record a non-empty run of contributions builds: first name, summed amount, number. */
  function MateOf(cs: seq<Entry>): SoulMate
    requires |cs| > 0
  {
    SoulMate(cs[0].party.name, TotalOf(cs), |cs|)
  }

  /** `l` holds for `key` exactly the record that `cs` builds. */
  predicate Holds(l: Ledger, key: string, cs: seq<Entry>) {
    && (key in l.mates <==> |cs| > 0)
    && (key in l.mates ==> l.mates[key] == MateOf(cs))
  }

  /** One step of the loop keeps a ledger and a key's contributions in agreement. */
  lemma PostHolds(l: Ledger, cs: seq<Entry>, entry: Option<Entry>, role: Role, key: string)
    requires Holds(l, key, cs)
    ensures Holds(Post(l, entry, role), key, cs + Matching(entry, role, key))
  {
    var next := cs + Matching(entry, role, key);
    if next == cs {
      if entry.Some? && entry.value.role == role {
        assert entry.value.party.key != key;
      }
    } else {
      var e := entry.value;
      assert next == cs + [e] && next[..|next| - 1] == cs;
      assert Post(l, entry, role) == Record(l, e.party, e.amount);
      assert TotalOf(next) == TotalOf(cs) + e.amount;
      if |cs| > 0 {
        var m := l.mates[key];
        assert m == MateOf(cs);
        assert next[0] == cs[0];
        assert Record(l, e.party, e.amount).mates[key] == SoulMate(m.name, m.totalAmount + e.amount, m.count + 1);
      } else {
        assert next == [e];
      }
    }
  }

  /** One step only ever appends a key. */
  lemma PostExtends(l: Ledger, entry: Option<Entry>, role: Role)
    ensures l.keys <= Post(l, entry, role).keys
  {
  }

  /**
   * Insertion order: the keys after any prefix of the transactions are a
   * prefix of the final keys, so a key sits before every key first seen
   * after it.
   */
  lemma {:induction false} KeysAppended(txs: seq<Transaction>, role: Role, i: nat)
    requires i <= |txs|
    ensures Tally(txs[..i], role).keys <= Tally(txs, role).keys
    decreases |txs|
  {
    if i == |txs| {
      assert txs[..i] == txs;
    } else {
      var init := txs[..|txs| - 1];
      KeysAppended(init, role, i);
      assert init[..i] == txs[..i];
      PostExtends(Tally(init, role), EntryOf(txs[|txs| - 1]), role);
    }
  }

  lemma PostValid(l: Ledger, entry: Option<Entry>, role: Role)
    requires ValidLedger(l)
    ensures ValidLedger(Post(l, entry, role))
  {
  }

  lemma {:induction false} TallyValid(txs: seq<Transaction>, role: Role)
    ensures ValidLedger(Tally(txs, role))
    decreases |txs|
  {
    if txs != [] {
      TallyValid(txs[..|txs| - 1], role);
      PostValid(Tally(txs[..|txs| - 1], role), EntryOf(txs[|txs| - 1]), role);
    }
  }

  /**
   * A counterparty has a record exactly when some transaction contributed to
   * it; the record holds the name of the first contribution, the sum of all
   * their amounts and their number.
   */
  lemma {:induction false} TallyRecord(txs: seq<Transaction>, role: Role, key: string)
    ensures key in Tally(txs, role).mates <==> |Contributions(txs, role, key)| > 0
    ensures key in Tally(txs, role).mates ==>
      var cs := Contributions(txs, role, key);
      Tally(txs, role).mates[key] == SoulMate(cs[0].party.name, TotalOf(cs), |cs|)
    decreases |txs|
  {
    if txs != [] {
      var prefix := txs[..|txs| - 1];
      TallyRecord(prefix, role, key);
      PostHolds(Tally(prefix, role), Contributions(prefix, role, key), EntryOf(txs[|txs| - 1]), role, key);
    }
  }

  function ContactTotal(c: Contact): real {
    c.mate.totalAmount
  }

  /** `dict.items()`: the key-record pairs in insertion order. */
  function Items(l: Ledger): (r: seq<Contact>)
    requires forall k :: k in l.keys ==> k in l.mates
    ensures |r| == |l.keys|
    ensures forall i :: 0 <= i < |r| ==> r[i] == Contact(l.keys[i], l.mates[l.keys[i]])
    decreases |l.keys|
  {
    if l.keys == [] then []
    else [Contact(l.keys[0], l.mates[l.keys[0]])] + Items(Ledger(l.keys[1..], l.mates))
  }

  /**
   * `list(sorted(items, key=total_amount, reverse=True).items())[:1]`: nothing
   * for an empty dictionary, otherwise the record of largest total, the
   * earliest-inserted one among equals.
   */
  function Top(l: Ledger): (r: seq<Contact>)
    requires ValidLedger(l)
    ensures |r| <= 1
    ensures |r| == 1 <==> |l.keys| > 0
    ensures |r| == 1 ==> r[0] == Items(l)[EarliestMax(Items(l), ContactTotal)]
    ensures |r| == 1 ==> forall c :: c in Items(l) ==> c.mate.totalAmount <= r[0].mate.totalAmount
  {
    var sorted := SortDesc(Items(l), ContactTotal);
    if |sorted| == 0 then []
    else
      SortHead(Items(l), ContactTotal);
      sorted[..1]
  }

  /** The dictionary update of one transaction: add to a known key, or start a record and append the key. */
  method Enter(keys: seq<string>, dict: map<string, SoulMate>, party: Party, amount: real)
    returns (keys': seq<string>, dict': map<string, SoulMate>)
    ensures Ledger(keys', dict') == Record(Ledger(keys, dict), party, amount)
  {
    var phone := party.key;
    keys' := keys;
    if phone in dict {
      var m := dict[phone];
      dict' := dict[phone := SoulMate(m.name, m.totalAmount + amount, m.count + 1)];
    } else {
      dict' := dict[phone := SoulMate(party.name, amount, 1)];
      keys' := keys + [phone];
    }
  }

  /** `identify_mpesa_soulmates`: both dictionaries filled in one pass, then cut to their top entry. */
  method IdentifyMpesaSoulmates(txs: seq<Transaction>) returns (r: SoulMates)
    ensures ValidLedger(Tally(txs, Receipt)) && ValidLedger(Tally(txs, Transfer))
    ensures r.topSenders == Some(Top(Tally(txs, Receipt)))
    ensures r.topReceivers == Some(Top(Tally(txs, Transfer)))
  {
    var senderKeys: seq<string>, senders: map<string, SoulMate> := [], map[];
    var receiverKeys: seq<string>, receivers: map<string, SoulMate> := [], map[];
    var i := 0;
    while i < |txs|
      invariant 0 <= i <= |txs|
      invariant Ledger(senderKeys, senders) == Tally(txs[..i], Receipt)
      invariant Ledger(receiverKeys, receivers) == Tally(txs[..i], Transfer)
    {
      TallyStep(txs, i, Receipt);
      TallyStep(txs, i, Transfer);
      var tx := txs[i];
      ghost var entry := EntryOf(tx);
      var role := RoleOf(tx.details);
      if role == Receipt {
        var party := Counterparty(tx.details);
        if party.Some? {
          var amount := Amount(tx.paidIn);
          if amount.Some? {
            assert entry == Some(Entry(Receipt, party.value, amount.value));
            senderKeys, senders := Enter(senderKeys, senders, party.value, amount.value);
          } else {
            assert entry == None;
          }
        } else {
          assert entry == None;
        }
      } else if role == Transfer {
        var party := Counterparty(tx.details);
        if party.Some? {
          var amount := Amount(tx.withdrawn);
          if amount.Some? {
            assert entry == Some(Entry(Transfer, party.value, amount.value));
            receiverKeys, receivers := Enter(receiverKeys, receivers, party.value, amount.value);
          } else {
            assert entry == None;
          }
        } else {
          assert entry == None;
        }
      } else {
        assert entry == None;
      }
      i := i + 1;
    }
    assert txs[..|txs|] == txs;
    TallyValid(txs, Receipt);
    TallyValid(txs, Transfer);
    r := SoulMates(Some(Top(Ledger(senderKeys, senders))), Some(Top(Ledger(receiverKeys, receivers))));
  }

  /** Whether `tx` feeds the dictionary of `role`. */
  predicate Feeds(tx: Transaction, role: Role) {
    EntryOf(tx).Some? && EntryOf(tx).value.role == role
  }

  /** One step adds a key exactly when its entry is of the dictionary's role, and never removes one. */
  lemma PostKeys(l: Ledger, entry: Option<Entry>, role: Role)
    requires ValidLedger(l)
    ensures |Post(l, entry, role).keys| > 0 <==> |l.keys| > 0 || (entry.Some? && entry.value.role == role)
  {
    if entry.Some? && entry.value.role == role && entry.value.party.key in l.mates {
      assert entry.value.party.key in l.keys;
    }
  }

  /** Whether some transaction of `txs` feeds the dictionary of `role`. */
  predicate AnyFeeds(txs: seq<Transaction>, role: Role) {
    exists k :: 0 <= k < |txs| && Feeds(txs[k], role)
  }

  /** Some element of `xs` satisfies `p` exactly when one before the last does or the last does. */
  lemma AnyStep<T>(xs: seq<T>, prefix: seq<T>, p: T -> bool)
    requires xs != [] && prefix == xs[..|xs| - 1]
    ensures (exists k :: 0 <= k < |xs| && p(xs[k])) <==>
      (exists k :: 0 <= k < |prefix| && p(prefix[k])) || p(xs[|xs| - 1])
  {
    if exists k :: 0 <= k < |prefix| && p(prefix[k]) {
      var k :| 0 <= k < |prefix| && p(prefix[k]);
      assert xs[k] == prefix[k];
    }
    if exists k :: 0 <= k < |xs| && p(xs[k]) {
      var k :| 0 <= k < |xs| && p(xs[k]);
      if k < |prefix| {
        assert xs[k] == prefix[k];
      }
    }
  }

  lemma AnyFeedsStep(txs: seq<Transaction>, role: Role)
    requires txs != []
    ensures AnyFeeds(txs, role) <==> AnyFeeds(txs[..|txs| - 1], role) || Feeds(txs[|txs| - 1], role)
  {
    AnyStep(txs, txs[..|txs| - 1], tx => Feeds(tx, role));
  }

  /** A side has a top entry exactly when some transaction of that role contributed. */
  lemma {:induction false} TopPresent(txs: seq<Transaction>, role: Role)
    ensures ValidLedger(Tally(txs, role))
    ensures |Top(Tally(txs, role))| == 1 <==> AnyFeeds(txs, role)
    decreases |txs|
  {
    TallyValid(txs, role);
    if txs != [] {
      var prefix := txs[..|txs| - 1];
      TopPresent(prefix, role);
      PostKeys(Tally(prefix, role), EntryOf(txs[|txs| - 1]), role);
      AnyFeedsStep(txs, role);
    }
  }
}
