/**
 * The statement payload the backend sends and the slides read, field for
 * field as the client's interfaces declare it (client/lib/api.ts). Amounts
 * that arrive as numbers are `real`; those that arrive as display strings
 * (`"6,762.00"`) stay strings.
 */
module Statement {
  import opened Wrappers

  /** One row of the statement's transaction table. */
  datatype Transaction = Transaction(
    receiptNumber: string,
    completionTime: string,
    details: string,
    transactionStatus: string,
    paidIn: string,
    withdrawn: string,
    balance: string)

  /** A frequent counterparty: display name, summed amount and number of transactions. */
  datatype SoulMate = SoulMate(name: string, totalAmount: real, count: int)

  /** One `key: SoulMate` entry of a `top_senders` or `top_receivers` record, in record order. */
  datatype Contact = Contact(key: string, mate: SoulMate)

  /** `soul_mates`; a record that is missing or null is None. */
  datatype SoulMates = SoulMates(topSenders: Option<seq<Contact>>, topReceivers: Option<seq<Contact>>)

  /** A `{count, amount}` bucket. */
  datatype Bucket = Bucket(count: int, amount: real)

  const EmptyBucket := Bucket(0, 0.0)

  datatype TimeOfDaySpending = TimeOfDaySpending(morning: Bucket, afternoon: Bucket, evening: Bucket, night: Bucket)

  /** `weekday_spending`, whose keys come in the order Monday to Sunday. */
  datatype WeekdaySpending = WeekdaySpending(
    monday: Bucket, tuesday: Bucket, wednesday: Bucket, thursday: Bucket,
    friday: Bucket, saturday: Bucket, sunday: Bucket)

  datatype DayVsWeekendSpending = DayVsWeekendSpending(weekday: Bucket, weekend: Bucket)

  /** One row of the summary table: the paid-in and paid-out display strings. */
  datatype SummaryCategory = SummaryCategory(paidIn: string, paidOut: string)

  /** `summary`, keyed by the table's own labels, trailing colon included. */
  type Summary = map<string, SummaryCategory>

  const SendMoneyKey := "SEND MONEY:"
  const ReceivedMoneyKey := "RECEIVED MONEY:"
  const PayBillKey := "LIPA NA M-PESA (PAYBILL):"
  const BuyGoodsKey := "LIPA NA M-PESA (BUY GOODS):"
  const TotalKey := "TOTAL:"

  datatype ParsedStatement = ParsedStatement(
    customerName: string,
    phoneNumber: string,
    email: string,
    statementBeginDate: string,
    statementEndDate: string,
    summary: Summary,
    soulMates: Option<SoulMates>,
    timeOfDaySpending: TimeOfDaySpending,
    dayVsWeekendSpending: DayVsWeekendSpending,
    weekdaySpending: WeekdaySpending,
    transactions: seq<Transaction>)
}
