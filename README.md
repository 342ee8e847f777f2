# M-PESA Wrapped, modelled in Dafny

M-PESA Wrapped reads a Safaricom M-PESA statement (a PDF) and presents a
"year in review" as eight slides. This project models the core of that
system and proves properties of the model:

- **the statement reader** (`parse.dfy`, api/parse.py). It covers:
  - the customer header from the first page's text lines;
  - the summary table;
  - the transaction rows of every page's dominant table;
  - the two error messages.
  The PDF library is replaced by what it yields: pages with their text and tables, or the failure it raised.
- **the backend aggregations** (`app.dfy`, api/app.py):
  - spending on weekdays versus weekends;
  - spending per weekday and per time of day;
  - the "soulmates", the counterparties that sent the most and received the most.
  Each Python loop is a method whose loop invariant ties its counters to a function of the transactions read so far.
- **the slides' derivations** (`wrap_slides.dfy`, client/components/wrap-slides.tsx), the facts each slide computes before it renders:
  - money in and out, with the net;
  - the category ranking;
  - the top counterparties;
  - the dominant time slot and weekday, with the weekday bars;
  - the weekday/weekend split;
  - the closing figures.
- **the slide viewer** (`wrap_viewer.dfy`, client/components/wrap-viewer.tsx): a class with the current slide and the direction of the last move, changed by the buttons, the progress dots and the arrow keys.
- **shared pieces**:
  - `text.dfy`: the Python and JavaScript string operations the code relies on;
  - `ranking.dfy`: the stable descending sort that both languages' sort calls perform;
  - `statement.dfy`: the payload the client receives;
  - `wrappers.dfy`;
  - `pipeline.dfy`: statements across layers, for example that the bars drawn for the backend's weekday buckets always lie in [0, 100].

Modelling conventions:
- Amounts are `real`. A conversion that Python's `float` rejects (ValueError), or that JavaScript's `parseFloat` turns into NaN, is `None`.
- `datetime.strptime` is a parameter `Clock` that maps a completion time to its weekday and hour, or to None.

The viewer's registry holds eight slides. `goToSlide` stores any index it is given without a bounds check, so the model states range facts only for indices in range.

The time-of-day function counts every transaction whose time parses, even when its withdrawal is empty or unreadable. The weekday functions count only readable withdrawals. `App.UnreadableAmount` and `App.SlotsCoverVisits` state this difference.

## Model

| member | source | states |
|---|---|---|
| WrapViewer.Viewer.constructor | client/components/wrap-viewer.tsx:22-23 | the viewer mounts on slide 0 moving forward |
| WrapViewer.Viewer.CurrentSlide | client/components/wrap-viewer.tsx:25-34 | the rendered slide is the registry entry at the current index |
| WrapViewer.Viewer.NextSlide | client/components/wrap-viewer.tsx:36-41 | moves one slide forward and records forward, except on the last slide where nothing changes; the index stays in range |
| WrapViewer.Viewer.PrevSlide | client/components/wrap-viewer.tsx:43-48 | moves one slide back and records backward, except on the first slide where nothing changes |
| WrapViewer.Viewer.GoToSlide | client/components/wrap-viewer.tsx:50-53 | jumps to the index, forward exactly when it lies after the current slide; in range when the index is |
| WrapViewer.Viewer.HandleKeyDown | client/components/wrap-viewer.tsx:57-63 | ArrowRight acts as next, ArrowLeft as previous, any other key changes nothing |
| WrapViewer.TransitionsStayInRange | client/components/wrap-viewer.tsx:36-63 | every move keeps the index inside the eight-slide registry |
| WrapViewer.NoWraparound | client/components/wrap-viewer.tsx:36-48 | next on the last slide and previous on the first slide change nothing |
| WrapViewer.DisabledExactlyWhenInert | client/components/wrap-viewer.tsx:85-117 | a button is disabled exactly when pressing it would change nothing |
| WrapViewer.NextThenPrev | client/components/wrap-viewer.tsx:36-48 | from a non-final slide, forward then back returns to the same index, recorded as backward |
| WrapViewer.PrevThenNext | client/components/wrap-viewer.tsx:36-48 | from a non-initial slide, back then forward returns to the same index, recorded as forward |
| WrapViewer.GoToDirection | client/components/wrap-viewer.tsx:50-53 | a jump lands on its target; its direction is forward iff the target is later; jumping in place reads backward |
| WrapViewer.RightPresses | client/components/wrap-viewer.tsx:56-67 | n ArrowRight presses advance min(n, slides left) slides |
| WrapViewer.LeftPresses | client/components/wrap-viewer.tsx:56-67 | n ArrowLeft presses go back min(n, current index) slides |
| WrapViewer.PressesStayInRange | client/components/wrap-viewer.tsx:56-67 | any sequence of key presses keeps the index in range |
| WrapSlides.ParseAmount | client/components/wrap-slides.tsx:34-35 | a figure is a number iff the string without its commas is a numeral; it is never negative; a comma-free string parses as it is |
| WrapSlides.TotalScenario | client/components/wrap-slides.tsx:33-36 | a TOTAL row of "7,233.00" in and "7,302.00" out reads 7233 and 7302, a net of -69, shown as negative |
| WrapSlides.MoneyMovementOf | client/components/wrap-slides.tsx:33-36 | money in and out are the TOTAL row's strings with commas removed, parsed; the net exists iff both parse and is their difference |
| WrapSlides.NetShownPositiveIff | client/components/wrap-slides.tsx:62 | the net line is green iff both figures parse and money out does not exceed money in; both figures are non-negative |
| WrapSlides.RankedCategories | client/components/wrap-slides.tsx:70-82 | the ranking is sorted by amount, largest first; it is a permutation of the kept categories and keeps the declaration order among equal amounts |
| WrapSlides.PaidOutAmount | client/components/wrap-slides.tsx:79 | an empty paid-out string (after dropping commas) counts as 0; otherwise it is the parsed figure; never negative |
| WrapSlides.ShownCategories | client/components/wrap-slides.tsx:105 | the rows on screen are the first four of the ranking, or all of it when it has at most four |
| WrapSlides.KeptMembers | client/components/wrap-slides.tsx:70-81 | a category is kept iff its summary entry exists and its paid-out amount parses above 0 |
| WrapSlides.RankedMembers | client/components/wrap-slides.tsx:70-105 | the ranking holds exactly the qualifying categories, at most four, so the slice to four shows all of them |
| WrapSlides.RankedPositive | client/components/wrap-slides.tsx:76-81 | every category on screen has a positive amount |
| WrapSlides.NoSpendingDataIff | client/components/wrap-slides.tsx:85-96 | the "No spending data" branch is taken iff no declared category qualifies |
| WrapSlides.FirstEntry | client/components/wrap-slides.tsx:130-131 | the first entry exists iff the record is present and non-empty, and it is the record's first entry |
| WrapSlides.NoFrequentContactsIff | client/components/wrap-slides.tsx:130-134 | the "No frequent contacts" branch is taken iff the soulmates are missing or both records are missing or empty |
| WrapSlides.SortedTimes | client/components/wrap-slides.tsx:201-206 | the detail strip holds the four slots sorted by amount, largest first, as a permutation of Morning to Night that keeps their order among equal amounts; its head is the top slot |
| WrapSlides.TopTime | client/components/wrap-slides.tsx:201-208 | the top time slot is the earliest slot of largest amount and no slot exceeds it |
| WrapSlides.MorningWinsTies | client/components/wrap-slides.tsx:201-208 | Morning is the top slot whenever no other slot has more, so all-zero spending reads a Morning spender |
| WrapSlides.TimeOfDayScenario | client/components/wrap-slides.tsx:201-208 | twelve morning transactions of 6869 in total and nothing else read as a Morning spender |
| WrapSlides.SortedDays | client/components/wrap-slides.tsx:262-264 | the seven days are sorted by amount, largest first, as a permutation of Monday to Sunday; days with equal amounts keep their Monday-to-Sunday order |
| WrapSlides.TopDay | client/components/wrap-slides.tsx:262-266 | the top day is the earliest day of largest amount, and no day exceeds it |
| WrapSlides.MaxAmount | client/components/wrap-slides.tsx:267 | the maximum bounds every day's amount and is the amount of the first sorted day |
| WrapSlides.MaxAmountIsTop | client/components/wrap-slides.tsx:266-267 | the maximum the bars are scaled by is the top day's amount and bounds every day |
| WrapSlides.BarPercent | client/components/wrap-slides.tsx:287 | a bar is 0 when the maximum is not positive; within [0, 100] for an amount between 0 and a positive maximum; 100 for the maximum itself |
| WrapSlides.BarsBounded | client/components/wrap-slides.tsx:286-287 | for non-negative amounts every bar lies in [0, 100], and the top day's bar is full when anything was spent |
| WrapSlides.BarsOfBounded | client/components/wrap-slides.tsx:287 | bars of amounts within [0, m] lie in [0, 100], and a bar with the maximum amount is full |
| WrapSlides.MondayWinsTies | client/components/wrap-slides.tsx:262-266 | Monday is the top day whenever no other day has more |
| WrapSlides.ZeroMaxBars | client/components/wrap-slides.tsx:287 | a maximum of 0 draws every bar empty instead of dividing by zero |
| WrapSlides.NoSpendingWeek | client/components/wrap-slides.tsx:262-287 | with nothing spent on any day the maximum is 0, every bar is empty and Monday is the top day |
| WrapSlides.WeekdayPercent | client/components/wrap-slides.tsx:319-320 | the weekday share is 50 when the total is not positive, within [0, 100] for non-negative amounts, and 100 when only weekdays were spent on |
| WrapSlides.SplitProperties | client/components/wrap-slides.tsx:319-349 | the two shares add up to 100; a total that is not positive gives 50 and "weekends"; non-negative amounts give shares in [0, 100] |
| WrapSlides.MoreOnWeekdaysIff | client/components/wrap-slides.tsx:361 | for non-negative amounts the slide says "weekdays" iff weekdays took strictly more, so a tie reads "weekends" |
| WrapSlides.ClosingOf | client/components/wrap-slides.tsx:383-386 | the closing slide counts every transaction; its period line is the begin date, then exactly " - ", then exactly the end date |
| Ranking.SortDesc | client/components/wrap-slides.tsx:82 | the sort yields a permutation of its input, sorted by key, largest first |
| Ranking.SortStable | client/components/wrap-slides.tsx:82 | elements with equal keys keep their input order |
| Ranking.SortHead | client/components/wrap-slides.tsx:206-208 | the head of the sort is the earliest element of largest key |
| Ranking.SortMembers | api/app.py:279-281 | sorting keeps the length and exactly the elements of the input |
| Ranking.EarliestMax | api/app.py:279-288 | the index found holds the largest key, and every earlier element has a strictly smaller one |
| Text.SplitOnceAt | api/app.py:231 | splitting `a + sep + b` once gives `a` and `b` when the separator first occurs right after `a` |
| Text.Split | api/parse.py:45 | the pieces contain no separator and join back, with the separator, into the input; there are two or more iff the separator occurs, and then the first piece is the text before its leftmost occurrence and the rest split the text after it |
| Text.SplitOnce | api/app.py:231-232 | one or two pieces, two iff the separator occurs; the first has no separator; the pieces join back into the input |
| Text.SplitPair | api/parse.py:45-46 | the split has exactly two pieces iff the separator occurs once in the input |
| Text.Trim | api/parse.py:32 | the result has no whitespace at either end; it is the input with only leading and trailing whitespace removed |
| Text.RemoveAll | api/app.py:66 | the result holds exactly the input's characters other than the removed one |
| Text.RemoveAllAppend | api/app.py:66 | removal distributes over concatenation, so the kept characters stay in their order |
| Text.RemoveAllChar | api/app.py:66 | a single character is dropped when it is the removed one and kept otherwise |
| Text.DropOne | api/app.py:66 | one more removed character between two pieces changes nothing |
| Text.DropAt | api/app.py:66 | one removed character between two pieces without it is dropped, and the pieces are joined in order |
| Text.ReplaceChar | api/parse.py:77 | each character is replaced pointwise; the replaced character no longer occurs |
| Text.ToLower | api/app.py:224 | ASCII letters are lowered pointwise, preserving length |
| Text.ParseDecimal | api/app.py:68 | a number exactly for a plain decimal numeral; the number is non-negative |
| Text.WholeNumeral | api/app.py:68 | a run of digits denotes its whole number |
| Text.PointNumeral | api/app.py:68 | digits around the first point denote the whole part plus the fraction over the matching power of ten |
| Text.WholeCents | api/app.py:68 | four digits followed by ".00" denote the four-digit number |
| Text.ExactCents | api/app.py:68 | "7233.00" denotes exactly 7233 |
| Text.ThousandsUncomma | api/app.py:66 | dropping the comma of "d,ddd.00" leaves four digits followed by ".00" |
| Text.ThousandsValue | client/components/wrap-slides.tsx:34-35 | "d,ddd.00" without its comma denotes the four-digit number its digits spell |
| Text.StatementShapes | client/components/wrap-slides.tsx:34-35 | "7,233.00" and "7,302.00" have the thousands shape and spell 7233 and 7302 |
| Text.ZeroNumeral | client/components/wrap-slides.tsx:79 | the stand-in "0" denotes 0 |
| Text.TrimOmits | api/app.py:232-233 | trimming adds no character |
| App.CleanAmount | api/app.py:66 | the cleaned amount has no comma, no dash and no whitespace at either end |
| App.Amount | api/app.py:66-68 | an amount exists iff the cleaned string is a numeral (so never for an empty one) and is non-negative |
| App.BlankAmount | api/app.py:66-67 | a string of only commas, dashes and whitespace cleans to "" and is no amount |
| App.SignDropped | api/app.py:66 | a leading minus sign does not change the cleaned amount |
| App.CleanNumeral | api/app.py:66 | an amount without commas, dashes or surrounding whitespace is left as it is |
| App.CommaDropped | api/app.py:66 | a comma between two pieces does not change the cleaned amount |
| App.ThousandsAmount | api/app.py:66-68 | an amount printed as "d,ddd.00" reads as the four-digit number its digits spell |
| App.StatementAmount | api/app.py:66-68 | a withdrawal of "7,233.00" is the amount 7233 |
| App.SpendOf | api/app.py:64-68 | a withdrawal is counted iff its time parses and its cleaned amount is a number; it carries the parsed weekday and a non-negative amount |
| App.SplitStep | api/app.py:67-75 | a counted withdrawal goes into the weekday bucket when its day is below 5, otherwise into the weekend bucket |
| App.WeekdayVsWeekendSpending | api/app.py:47-82 | the two buckets count and sum exactly the readable withdrawals on days 0-4 and on days 5-6 |
| App.DayRangeSplit | api/app.py:68-75 | buckets of adjacent weekday ranges add up to the bucket of their union |
| App.WholeWeek | api/app.py:60-75 | the whole week counts every readable withdrawal once and never more than the transactions whose time parses |
| App.DayRangeNonNegative | api/app.py:66-75 | every bucket has a non-negative count and amount |
| App.CountDay | api/app.py:132-135 | one readable withdrawal adds one and its amount to its day's bucket only |
| App.FigureWeekdaySpending | api/app.py:85-143 | each of the seven buckets counts and sums the readable withdrawals of its day |
| App.WeekdaysMakeUpSplit | api/app.py:47-143 | Monday to Friday add up to the weekday bucket, Saturday and Sunday to the weekend bucket, and both together count every readable withdrawal |
| App.WeekNonNegative | api/app.py:131-135 | no day of the week has a negative amount |
| App.SlotOf | api/app.py:177-196 | Morning is exactly the hours 5 to 11, Afternoon 12 to 16, Evening 17 to 20 and Night every other hour |
| App.SlotOrder | api/app.py:177-196 | from five in the morning the slots follow the clock; Night is exactly the hours from nine in the evening to five in the morning |
| App.AmountOrZero | api/app.py:179-181 | a readable withdrawal adds exactly its amount to a slot's amount, an unreadable one nothing |
| App.CountVisit | api/app.py:177-196 | a transaction at a given hour adds one to its slot's count and its readable amount, or nothing, to the slot's amount; the other slots are unchanged |
| App.FigureTimeOfDay | api/app.py:146-204 | each slot counts every transaction whose time parses into it and sums their readable withdrawals |
| App.SlotsCoverVisits | api/app.py:172-196 | the four counts add up to the transactions whose time parses, at least as many as the weekday functions count |
| App.UnreadableAmount | api/app.py:177-201 | a transaction with a parsing time but an unreadable withdrawal changes no weekday bucket, yet adds one to its slot's count and nothing to its amount |
| App.FundsReceivedFrom | api/app.py:227 | "funds received from" contains "received from" |
| App.RoleOf | api/app.py:227-253 | money received iff the lower-cased details contain "received from"; money sent iff not, and they contain "customer transfer to" or "send money to" |
| App.Counterparty | api/app.py:230-234 | a counterparty exists iff the details contain " - "; its key has no space and no surrounding whitespace; when the trimmed remainder after the first " - " has a space, key and name are its two trimmed sides around the first space; a one-token remainder is both key and name |
| App.CounterpartyOf | api/app.py:230-234 | details "head - key name", with " - " first after the head, give that key and that name |
| App.CounterpartyKeyOnly | api/app.py:230-234 | details "head - key" give the key as both key and name |
| App.EntryOf | api/app.py:227-264 | a transaction contributes iff its role is known, its details contain " - " and the role's amount column is a number; the entry carries that role, the details' counterparty (whose key has no space) and the role column's amount, which is non-negative |
| App.Enter | api/app.py:240-248 | a known key adds to its total and count and keeps its name; a new key starts a record with count 1 and is appended |
| App.PostHolds | api/app.py:240-248 | one step keeps each key's record equal to what its contributions build |
| App.TallyValid | api/app.py:219-276 | each dictionary's key list has distinct keys and holds exactly its map's keys |
| App.PostExtends | api/app.py:240-248 | one step keeps the key list as a prefix of the new one: keys are only appended |
| App.KeysAppended | api/app.py:219-276 | the key list after any prefix of the transactions is a prefix of the final key list, so keys keep the order in which they were first inserted |
| App.TallyRecord | api/app.py:219-276 | a counterparty has a record iff some transaction contributed; the record has the first contribution's name, the sum of the amounts and their number |
| App.Items | api/app.py:279-281 | the items are the key-record pairs in insertion order |
| App.Top | api/app.py:279-288 | at most one entry, present iff the dictionary is non-empty: the largest total, the earliest-inserted key among equals |
| App.IdentifyMpesaSoulmates | api/app.py:213-292 | both results are the top entry of the dictionaries built from the transactions in order |
| App.TopPresent | api/app.py:219-288 | a side has a top entry iff some transaction of its role contributed |
| Parse.FieldText | api/parse.py:31-32 | the field has no surrounding whitespace; when the prefix does not repeat, it is the text after the prefix, trimmed |
| Parse.PeriodDates | api/parse.py:44-48 | dates exist iff " - " occurs exactly once; they are the two trimmed sides |
| Parse.PeriodRoundTrip | api/parse.py:44-48 | unpadded dates join back into the period text |
| Parse.FieldDefault | api/parse.py:20-40 | a field that no line carries stays "" |
| Parse.FieldLastWins | api/parse.py:30-40 | the last line carrying the prefix decides the field; a later line overwrites an earlier one |
| Parse.PeriodDefault | api/parse.py:23-48 | without a line that sets the period both dates stay "", even when period lines fail to split in two |
| Parse.PeriodLastWins | api/parse.py:43-48 | the last line that sets the period decides both dates |
| Parse.ReadHeaderLine | api/parse.py:30-48 | one line updates each header variable whose prefix it starts with, the dates only when they split in two |
| Parse.ReadHeader | api/parse.py:20-48 | the header variables are what the lines set, in order, starting from "" |
| Parse.DataRows | api/parse.py:53 | every row but the header, in order; nothing for an empty table |
| Parse.ReadSummary | api/parse.py:53-64 | the summary loop builds the map of the data rows, failing on a short row |
| Parse.SummaryFails | api/parse.py:57-60 | reading the summary fails iff some row has fewer than three cells |
| Parse.SummaryKeys | api/parse.py:57-64 | a key is present iff some row carries it in its first cell |
| Parse.SummaryLastWins | api/parse.py:57-64 | for a repeated first cell the last row's paid-in and paid-out win |
| Parse.CleanDetails | api/parse.py:76-77 | cleaned details contain no newline and no surrounding whitespace; None gives ""; otherwise the trimmed text with each newline made a space |
| Parse.RecordsOf | api/parse.py:74-87 | a page's records exist iff every data row has seven cells, one record per row in order |
| Parse.ReadRow | api/parse.py:76-86 | a row becomes a record of its seven cells with cleaned details |
| Parse.ReadRows | api/parse.py:74-87 | the page's records are appended in row order, failing on a short row |
| Parse.ReadTransactions | api/parse.py:69-87 | the transactions are every page's records in page order, or the first error raised |
| Parse.TransactionsCount | api/parse.py:69-87 | reading succeeds iff every page has a dominant table of complete rows; it then yields the sum over pages of the rows after each header |
| Parse.TransactionsClean | api/parse.py:76-77 | no transaction's details contain a newline |
| Parse.FailureStays | api/parse.py:70-87 | once a page fails, reading the rest returns that same error |
| Parse.ParseStatement | api/parse.py:18-101 | a decryption failure reports "Wrong password or corrupted PDF file."; a malformed file reports "The PDF file is malformed or corrupted."; a missing first page, summary table or cell raises IndexError; a page without a table raises TypeError; otherwise the header, summary and transactions are as the three loops define |
| Pipeline.WeekBarsBounded | client/components/wrap-slides.tsx:262-287 | for any transactions, the bars drawn for the backend's weekday buckets lie in [0, 100] |
| Pipeline.ClosingCount | client/components/wrap-slides.tsx:383 | the closing slide's transaction count is the sum over pages of the data rows |
| Pipeline.ClosingPeriod | client/components/wrap-slides.tsx:386 | an unpadded period line is shown back exactly as the statement wrote it |

## Left out

- The PDF library (pdfplumber): opening, text extraction and table extraction. Their results are inputs: pages with text, tables and a dominant table, or one of the two opening failures.
- The FastAPI application, CORS, upload handling and the HTTP 500 wrapping of errors in `process_statement`.
- The conversion of the reader's dictionaries into `Transansaction` objects (api/app.py:36-43, 313): its fields are `str`, so a None cell fails that request. The aggregations are modelled on records whose cells are strings.
- Closing the file in the `finally` block of `parse_statement`, and the choice between a path and bytes.
- `datetime.strptime` and `date.weekday()`: they are the `Clock` parameter.
- `round(..., 2)` on the bucket amounts, floating-point rounding in general, and `toLocaleString` and `toFixed` formatting: amounts are exact reals.
- Text.ParseDecimal: it accepts only plain decimal numerals. Python's `float` also accepts signs, exponents, "inf", "infinity" and "nan" in any case, digit underscores ("1_000") and surrounding whitespace. JavaScript's `parseFloat` also accepts signs, exponents and "Infinity", skips leading whitespace and ignores trailing garbage.
- Text.IsSpace: whitespace covers the ASCII and Latin-1 whitespace characters only, not all of Unicode.
- Text.LowerChar: lower-casing covers the ASCII letters 'A' to 'Z' only.
- `calculate_transaction_costs`: its loop body is empty.
- The second, duplicated time-of-day call in `process_statement`.
- The intro slide's and the share buttons' markup, the animations and the icons.
- `TopSender`/`TopReceiver` display: the model reads JavaScript objects as lists of entries in insertion order. It does not model JavaScript's ordering of integer-like keys first.
- WrapSlides.MoneyMovementOf: it requires the "TOTAL:" entry, because the slide reads it without a check and would throw without it.
