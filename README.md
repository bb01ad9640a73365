# Nifty option-chain analytics and the nutrunner station demo, in Dafny

This project models the computational core of a repository that holds a few
separate programs:

- the NSE option-chain collector (`nse_data_06-06-2025.py`). It schedules itself
  inside trading hours and flattens the exchange's option-chain payload into
  per-quote rows. It then labels the stored rows through three analysis queries:
  moving averages, a top-3-by-volume filter, `LAG`, the join with the opposite
  side, percent changes, `PERCENT_RANK` and first-match-wins label cascades. It
  also checks whether a signal is sustained over the five latest records;
- the option monitor (`nsev.py`). Its worker fetches through a cookie session
  and turns each document into a snapshot: the put-call ratio, the ATM strike,
  the max-pain strike, and call and put volume with their net flow. Its window
  keeps the 30 latest snapshots and derives the summary, entry-signal,
  historical-table and strike-card labels from them;
- the option-chain viewer (`originalnse02-2025.py`, with its client copied in
  `TT2.py`). Its session client bootstraps cookies and retries once on 401. The
  viewer derives the ATM strike, the eighteen strikes around it, the
  nearest-expiry rows at those strikes, the five highest-volume rows per side,
  the leading strikes, the ATM colouring and the volume trend;
- the nutrunner station page (`script.js`). It holds the six-step operator
  sequence with its buttons and swipe gesture, the barcode's 1-D bar pattern,
  the tightening run with its 50-point chart, the pass/fail branch, the
  password unlock and the restart;
- two small scripts: the stacked volume bars of `histogram.py` and the
  character-art 'e' of `pattu.py`.

There is one Dafny module per concern:

- `MarketClock`: trading hours, the five-minute schedule, the cycle delays and
  the `HH:MM` bucket key.
- `OptionPayload`: payload flattening.
- `WindowEngine`: the window functions.
- `SignalRules`: dominance, signal and action.
- `IvVolume`: the IV and volume queries.
- `Sustainability`: the sustained-signal check.
- `Chain`: the decoded payload and the ATM strike.
- `SnapshotMetrics`: the worker's snapshot.
- `HttpSession`: the session client.
- `OptionWorker`: the worker's fetch and polling loop.
- `Monitor`: the monitor window.
- `StrikeSelection`: the viewer.
- `Nutrunner`: the station page.
- `Histogram` and `LetterPattern`: the two small scripts.
- `Sorting`, `Sequences` and `Wrappers`: shared helpers. `Sorting` models
  Python's stable `sort`/`sorted` by an insertion sort, because the scripts
  call them as library routines.

State that the source updates in place is modelled as classes:

- `HttpSession.NiftyOptionChain` and `OptionWorker.Worker`, for the session
  and its cookies;
- `Monitor.OptionMonitor`, for the history;
- `Nutrunner.Station`, for the page's globals.

Each method of these classes is proved equal to a specification function of
the old state. Loops of the source are methods with loop invariants, proved
against a function:

- the row flattening;
- the pain list and its arg-min;
- the strike loops and the strike filter;
- the historical table;
- the barcode generator and the tightening interval;
- the histogram loop and the nested print loops.

The barcode table, an object literal inside `generateBarcode`, is the lookup
`Nutrunner.Pattern`. The encoder and its decoding lemmas take the table as a
parameter and hold for any readable table; `Nutrunner.PatternsReadable`
shows that the page's table is one.

Numbers are exact (`int`, `real`). Python's `round` is modelled as
half-to-even and JavaScript's `Math.round` as half-up. SQLite's integer
division is written out where two INTEGER sums are divided.

Facts about the code that the model keeps:

- buckets are per minute (`HH:MM`), so the averages stored as `ma_5min`,
  `ma_15min` and `ma_30min` are frames of 3, 6 and 10 rows;
- the signal query's "previous" row is the previous row that survived the
  top-3 filter, which need not be the previous minute;
- `PERCENT_RANK` of a one-row partition is 0;
- the 401 retry's body is returned without looking at its status;
- the collector's `LIMIT 16`, commented "8 for CE and 8 for PE", keeps the
  16 keys of highest volume whatever their sides;
- the signal query's dominance column divides two INTEGER sums, so its
  'Balanced' test is the integer quotient's;
- the IV query's trading column compares a percentile in [0, 1] with 80 and
  20;
- the station chart labels each new point with the number of labels shown,
  which stays 50 once the window is full;
- the collector's schedule tests "after close" as `hour >= 15 and minute >= 40`.

The signal and IV query rows and the station state use these code paths as
written. The schedule is modelled both as written and corrected, and so is
the sustainability check, which reads column 11 as written. Each intended
behaviour is a separate, corrected member with its own proofs, listed under
"Findings" below.

## Model

| member | source | states |
|---|---|---|
| MarketClock.MarketHoursByFields | Dtat_nse_program/nse_data_06-06-2025.py:20-24 | trading hours hold exactly from 09:00:00 up to and including 15:40:00, stated on the hour, minute and second fields |
| MarketClock.SlotNeverInPast | Dtat_nse_program/nse_data_06-06-2025.py:40-54 | the candidate five-minute slot, rolled into the next hour at minute 60, is already strictly later than now, so the "add five minutes" branch never fires |
| MarketClock.NextUpdateTimeAsWritten | Dtat_nse_program/nse_data_06-06-2025.py:26-54 | the schedule as written always returns a valid instant on a five-minute mark, strictly later than now: 09:00:00 the same day before 09:00, 09:00:00 the next day when the hour is at least 15 and the minute at least 40, and otherwise a slot on the same day |
| MarketClock.SlotIsEarliest | Dtat_nse_program/nse_data_06-06-2025.py:40-54 | the candidate five-minute slot is the earliest five-minute mark strictly later than now |
| MarketClock.NextUpdateTimeAsWrittenIsEarliest | Dtat_nse_program/nse_data_06-06-2025.py:26-54 | from 09:00 on, outside the as-written close test, no five-minute mark lies strictly between now and the schedule's result |
| MarketClock.AfterCloseConjunctionMisses | Dtat_nse_program/nse_data_06-06-2025.py:36-38 | because the after-close test is `hour >= 15 and minute >= 40`, 16:05 is scheduled for 16:10, which is outside trading hours |
| MarketClock.NextUpdateTime | Dtat_nse_program/nse_data_06-06-2025.py:26-54 | the corrected schedule returns a five-minute mark inside trading hours, strictly later than now |
| MarketClock.NextUpdateTimeIsEarliest | Dtat_nse_program/nse_data_06-06-2025.py:26-54 | no five-minute mark inside trading hours lies strictly between now and the corrected schedule's result |
| MarketClock.NextAnalysis | Dtat_nse_program/nse_data_06-06-2025.py:1281-1293 | the next analysis instant is now plus five minutes with the seconds cleared |
| MarketClock.RunCycle | Dtat_nse_program/nse_data_06-06-2025.py:1270-1389 | a cycle fetches exactly inside trading hours; after an escaped exception it reschedules after 5000 ms, otherwise after 1000·(300 − second) ms, which is between 241 and 300 seconds |
| MarketClock.BucketKey | Dtat_nse_program/nse_data_06-06-2025.py:132 | the bucket key is five characters with ':' in the middle |
| MarketClock.BucketKeyOrder | Dtat_nse_program/nse_data_06-06-2025.py:130-177 | ordering rows by their `HH:MM` key text is ordering them by minute of the day, in both directions |
| Chain.Field | Dtat_nse_program/nsev.py:85-111 | `q[k]` succeeds exactly when the key is present, and yields its value |
| Chain.FieldOr | Dtat_nse_program/nsev.py:601-668 | `q.get(k, d)`, for values of any type, is the value when the key is present and d otherwise; the payload rows use it too |
| Chain.RoundHalfEven | Dtat_nse_program/originalnse02-2025.py:530-531 | Python's `round` is within one half of its argument, and an exact half goes to the even neighbour |
| Chain.AtmStrike | Dtat_nse_program/originalnse02-2025.py:530-531 | the ATM strike is a multiple of 50 |
| Chain.AtmStrikeNearest | Dtat_nse_program/originalnse02-2025.py:530-531 | the ATM strike is within 25 of the price and no farther from it than any other multiple of 50 |
| Chain.AtmStrikeTies | Dtat_nse_program/originalnse02-2025.py:530-531 | halfway prices go to the even multiple of 50: 24025 goes to 24000 and 24075 goes to 24100 |
| OptionPayload.QuoteRow | Dtat_nse_program/nse_data_06-06-2025.py:779-819 | a row carries the time, strike, side, expiry and underlying value it was built with, and each of the twelve quote fields (open interest, volume, last price, IV, OI change, change, buy and sell quantity, bid and ask quantity and price) is the quote's field of that key, 0 when absent |
| OptionPayload.RecordsOf | Dtat_nse_program/nse_data_06-06-2025.py:731-748 | the records list, when present, is non-empty |
| OptionPayload.AppendRecordRows | Dtat_nse_program/nse_data_06-06-2025.py:755-822 | the body of the per-record `try` appends exactly the record's rows to those collected so far |
| OptionPayload.ExtractOptionChainData | Dtat_nse_program/nse_data_06-06-2025.py:729-832 | the loop returns the flattening of every record, in order |
| OptionPayload.RecordRowsShape | Dtat_nse_program/nse_data_06-06-2025.py:754-822 | a record yields at most two rows, all with the requested expiry, side 'CE' or 'PE' and a truthy strike; with two rows, CE comes first and both share the strike |
| OptionPayload.RecordSkipped | Dtat_nse_program/nse_data_06-06-2025.py:760-775 | a record of another expiry, with no expiry, with neither side, or with a falsy strike yields no row |
| OptionPayload.RecordWithBothSides | Dtat_nse_program/nse_data_06-06-2025.py:767-819 | a well-formed record with both quotes yields its CE row then its PE row, with the strike taken from CE |
| OptionPayload.FlattenRecordsShape | Dtat_nse_program/nse_data_06-06-2025.py:754-822 | the rows of n records number at most 2n and are all well formed |
| OptionPayload.ExtractedRowsWellFormed | Dtat_nse_program/nse_data_06-06-2025.py:729-832 | every extracted row has the requested expiry, side 'CE' or 'PE' and a truthy strike; a payload without records gives none |
| OptionPayload.MalformedPayloads | Dtat_nse_program/nse_data_06-06-2025.py:731-748 | an empty payload, one without `records`, or one whose `data` is not an array yields no rows |
| WindowEngine.UniqueKeysValues | Dtat_nse_program/nse_data_06-06-2025.py:171-177 | in the grouped table two rows with the same (minute, strike, side) are the same row |
| WindowEngine.FilterAscending | Dtat_nse_program/nse_data_06-06-2025.py:141-166 | filtering keeps minute order |
| WindowEngine.Partition | Dtat_nse_program/nse_data_06-06-2025.py:141-166 | a partition is in minute order and holds exactly the table's rows of that strike and side |
| WindowEngine.PartitionRows | Dtat_nse_program/nse_data_06-06-2025.py:141-166 | sorting a partition's rows by minute gives an ascending run holding exactly those rows |
| WindowEngine.HistoryEndsAtBucket | Dtat_nse_program/nse_data_06-06-2025.py:141-166 | the frame history of a row is an ascending run of its own partition, none of it later than the row, and the row itself is last |
| WindowEngine.HistoryNonEmpty | Dtat_nse_program/nse_data_06-06-2025.py:141-166 | every row's history is non-empty |
| WindowEngine.HistoryRows | Dtat_nse_program/nse_data_06-06-2025.py:141-166 | a history is in minute order and holds only rows of the partition up to the row's minute |
| WindowEngine.HistoryHoldsBucket | Dtat_nse_program/nse_data_06-06-2025.py:141-166 | every row is in its own history |
| WindowEngine.MovingAverageFrame | Dtat_nse_program/nse_data_06-06-2025.py:141-166 | the k-preceding moving average covers the current row and min(k, i) earlier rows; it never reads a later row and lies between the bounds of its frame |
| WindowEngine.Ltps | Dtat_nse_program/nse_data_06-06-2025.py:141-152 | the price column of a series, element by element |
| WindowEngine.Volumes | Dtat_nse_program/nse_data_06-06-2025.py:153-162 | the volume column of a series, element by element |
| WindowEngine.Averages | Dtat_nse_program/nse_data_06-06-2025.py:141-166 | the five moving averages are attached to the row they were computed for |
| WindowEngine.FirstRowAverages | Dtat_nse_program/nse_data_06-06-2025.py:141-166 | on the first row of a partition every average equals the row's own value |
| WindowEngine.TopThree | Dtat_nse_program/nse_data_06-06-2025.py:178-185 | at most three rows rank within the top three |
| WindowEngine.TopThreeSelection | Dtat_nse_program/nse_data_06-06-2025.py:178-185 | a surviving row has at least the volume of every dropped row of its (minute, side), and a partition of three or fewer survives whole |
| WindowEngine.EarlierSurvivorsAscending | Dtat_nse_program/nse_data_06-06-2025.py:186-208 | the surviving rows `LAG` looks back over are in minute order |
| WindowEngine.EarlierSurvivorsMembers | Dtat_nse_program/nse_data_06-06-2025.py:186-208 | each of them is a surviving row of the same partition from before the row's minute |
| WindowEngine.EarlierSurvivorsShape | Dtat_nse_program/nse_data_06-06-2025.py:186-208 | the rows `LAG` looks back over are surviving rows of the partition before the row, in minute order |
| WindowEngine.PreviousIsLatestEarlierSurvivor | Dtat_nse_program/nse_data_06-06-2025.py:186-208 | whenever an earlier row of the partition survives there is a previous row, it survives, and no surviving earlier row is later than it |
| WindowEngine.PreviousShape | Dtat_nse_program/nse_data_06-06-2025.py:186-208 | a previous row is a surviving row of the same partition at an earlier minute |
| WindowEngine.OppositeIsOtherSide | Dtat_nse_program/nse_data_06-06-2025.py:209-212 | the joined row is a surviving other-side row of the same minute and strike; it exists when such a row exists, and is that row in a table with unique keys |
| WindowEngine.PctChange | Dtat_nse_program/nse_data_06-06-2025.py:248-283 | the percent change is defined exactly when the previous value is present and positive |
| WindowEngine.PctChangeThresholds | Dtat_nse_program/nse_data_06-06-2025.py:248-283 | a percent change above or below p is the current value above or below prev·(1 + p/100), and zero is no change |
| SignalRules.SqlIntDiv | Dtat_nse_program/nse_data_06-06-2025.py:226-227 | SQLite integer division is NULL exactly for a zero divisor and the quotient for non-negative operands |
| SignalRules.BalancedAsWrittenMeansWithinWhole | Dtat_nse_program/nse_data_06-06-2025.py:226-227 | with integer division, the balanced test as written only asks that the OI and volume differences be smaller than the opposite side's values |
| SignalRules.BalancedAsWrittenAcceptsFiftyPercent | Dtat_nse_program/nse_data_06-06-2025.py:226-227 | CE 150/150 against PE 100/100 is 'Balanced' as written, and 'Mixed Signals' under the 20% ratio |
| SignalRules.BalancedRatioWithinTwentyPercent | Dtat_nse_program/nse_data_06-06-2025.py:226-227 | the corrected balanced test is exactly both differences below 20% of the opposite side's values |
| SignalRules.DominanceInsufficientAndMirror | Dtat_nse_program/nse_data_06-06-2025.py:215-245 | dominance, as written and corrected, is 'Insufficient Opposite Data' exactly when the opposite row is missing or its OI, LTP or IV is not positive; the CE and PE branches are mirror images, both as written and corrected |
| SignalRules.SignalActionAgreement | Dtat_nse_program/nse_data_06-06-2025.py:290-369 | an unwinding signal comes exactly with the matching buy-the-other-side action; a strong-buy signal is exactly the strong-buy action with the average confirmations; no action means no signal; no previous row gives 'Insufficient data' and no action |
| SignalRules.SignalFollowsSide | Dtat_nse_program/nse_data_06-06-2025.py:290-369 | call labels only on CE rows and put labels only on PE rows |
| SignalRules.UnwindingExcludesSurge | Dtat_nse_program/nse_data_06-06-2025.py:290-338 | a row is never both unwinding and surging; unwinding means the price fell below 99% and a surge that it rose above 115% of the previous price |
| SignalRules.CallUnwindingExample | Dtat_nse_program/nse_data_06-06-2025.py:290-369 | price 102→80 with OI 1010→950 on a call is 'CALL Unwinding' with action 'BUY PE - Unwinding Signal', whatever the averages |
| SignalRules.SignalRowOf | Dtat_nse_program/nse_data_06-06-2025.py:186-369 | a query row carries its grouped row, the `LAG` row exactly when there is one, and the joined opposite row; its averages are the frames of its grouped row and of the `LAG` row, its volume, IV, OI and LTP change columns are the percentage changes against the `LAG` row; its signal and action columns are the cascades on those rows, and its dominance column is the as-written cascade with the integer-quotient balanced test |
| SignalRules.SignalQuery | Dtat_nse_program/nse_data_06-06-2025.py:128-371 | the query has one row per top-3 survivor, in table order, each SignalRowOf |
| SignalRules.DominanceAsWrittenWidensBalanced | Dtat_nse_program/nse_data_06-06-2025.py:215-245 | the as-written dominance differs from the corrected one only by calling 'Balanced' a row the corrected test calls 'Mixed Signals' |
| SignalRules.BalancedRatioIsBalancedAsWritten | Dtat_nse_program/nse_data_06-06-2025.py:226-227 | both ratios below 20% pass the integer-quotient test too |
| SignalRules.QuotientBelow | Dtat_nse_program/nse_data_06-06-2025.py:226-227 | a non-negative difference whose real ratio to a non-zero divisor is below 0.2 has a defined SQLite integer quotient below 0.2 |
| SignalRules.SignalInsufficientIffNoEarlierSurvivor | Dtat_nse_program/nse_data_06-06-2025.py:290-292 | a row's signal is 'Insufficient data' exactly when no earlier row of its partition survived the top-3 filter |
| SignalRules.DominanceInsufficientIffNoUsableOpposite | Dtat_nse_program/nse_data_06-06-2025.py:209-245 | a row's dominance is 'Insufficient Opposite Data' exactly when no surviving other-side row at its minute and strike has positive OI, LTP and IV |
| SignalRules.SingleBucketTable | Dtat_nse_program/nse_data_06-06-2025.py:128-371 | a table of one grouped row labels it 'Insufficient data', no clear action and 'Insufficient Opposite Data' |
| IvVolume.TopStrikes | Dtat_nse_program/nse_data_06-06-2025.py:376-386 | at most 16 keys are kept |
| IvVolume.TopKeyRows | Dtat_nse_program/nse_data_06-06-2025.py:463-466 | the inner join keeps exactly the grouped rows whose key is among the top strikes |
| IvVolume.TopStrikesSelection | Dtat_nse_program/nse_data_06-06-2025.py:376-386 | a kept key has at least the day's volume of every dropped key |
| IvVolume.LagIsEarlierRow | Dtat_nse_program/nse_data_06-06-2025.py:446-461 | a lagged row, when there is one, is an earlier row of the same partition |
| IvVolume.LagIsLatest | Dtat_nse_program/nse_data_06-06-2025.py:446-461 | when the partition has an earlier row, there is a lagged row and it is no earlier than that one |
| IvVolume.LagIsLatestEarlierRow | Dtat_nse_program/nse_data_06-06-2025.py:446-461 | the lagged row is an earlier row of the same partition, exists whenever one does, and is the latest of them |
| IvVolume.MinuteValues | Dtat_nse_program/nse_data_06-06-2025.py:431-445 | every row of the minute contributes its value to the minute's ranking |
| IvVolume.CountBelowMember | Dtat_nse_program/nse_data_06-06-2025.py:431-445 | a member of the partition has fewer smaller values than the partition has rows |
| IvVolume.CountBelowNone | Dtat_nse_program/nse_data_06-06-2025.py:431-445 | no smaller value exactly when the value is a minimum |
| IvVolume.PercentRankBounds | Dtat_nse_program/nse_data_06-06-2025.py:431-445 | the percent rank is in [0, 1]; it is 0 exactly for a one-row partition or a minimum, and 1 exactly when every other row is smaller |
| IvVolume.IvTradingAsWrittenNeverSells | Dtat_nse_program/nse_data_06-06-2025.py:537-551 | with the percentile in [0, 1] and thresholds 80 and 20, the trading cascade as written never advises selling |
| IvVolume.IvTradingPercentileCounterexample | Dtat_nse_program/nse_data_06-06-2025.py:537-551 | a put at percentile 0.9 with IV up 5% is 'Monitor' as written and 'Consider Selling' with thresholds 0.8/0.2 |
| IvVolume.IvCascades | Dtat_nse_program/nse_data_06-06-2025.py:497-519 | a spike beyond ±15% wins over the percentile; 'Normal IV' exactly without a spike and with a percentile in [0.2, 0.8]; the price/IV relation is neutral exactly without a previous price, a price move or an IV change; only calls get a market behaviour |
| IvVolume.IvTradingPercentileBands | Dtat_nse_program/nse_data_06-06-2025.py:537-551 | corrected: selling only above percentile 0.8 on an IV rise and buying only below 0.2 on an IV fall, and exactly then when no call behaviour or spike decides first |
| IvVolume.BehaviorDecidesTrading | Dtat_nse_program/nse_data_06-06-2025.py:513-551 | each call behaviour fixes its trading signal before any IV test, both as written and corrected, and 'Strong Reversal' needs a normal behaviour, a spike and a price move |
| IvVolume.VolumeCascades | Dtat_nse_program/nse_data_06-06-2025.py:649-691 | the surge labels apply exactly when volume more than doubled and the OI change is known; OI build-up and unwinding are exactly the ±10% moves; 'New Position Building' is exactly 'Strong Buy' and 'Position Squaring Off' exactly 'Strong Sell' |
| IvVolume.IvRowOf | Dtat_nse_program/nse_data_06-06-2025.py:388-551 | an IV row carries its grouped row and its lagged row; its IV and volume percentiles are the `PERCENT_RANK` of its value among its minute's rows and lie in [0, 1]; its price, IV, volume and OI changes are the percent changes from the lagged row, and absent without one; its IV-signal, price/IV and behaviour columns are the cascades on those values, and its trading column is the as-written cascade |
| IvVolume.IvQueryNeverSells | Dtat_nse_program/nse_data_06-06-2025.py:537-551 | no row of the IV query as written advises 'Consider Selling', and 'Monitor' comes only without an IV fall |
| IvVolume.IvQuery | Dtat_nse_program/nse_data_06-06-2025.py:376-554 | one IV row per kept grouped row, in order, each IvRowOf that grouped row |
| IvVolume.IvFirstRowNeutral | Dtat_nse_program/nse_data_06-06-2025.py:446-519 | the first row of a kept partition has no previous row, no IV change, a neutral price/IV relation, normal behaviour and a percentile-based IV signal |
| IvVolume.VolumeRowOf | Dtat_nse_program/nse_data_06-06-2025.py:570-691 | a volume row carries its grouped row and its lagged row; its volume and OI percentiles are the `PERCENT_RANK` of its value among its minute's rows and lie in [0, 1]; its changes are the percent changes from the lagged row, and absent without one; its volume-signal, OI-signal and trading columns are the cascades on those values |
| IvVolume.VolumeQuery | Dtat_nse_program/nse_data_06-06-2025.py:558-694 | one volume row per kept grouped row, in order, each VolumeRowOf that grouped row |
| Sustainability.Column | Dtat_nse_program/nse_data_06-06-2025.py:103-126 | a fetched record has exactly fifteen columns |
| Sustainability.ColumnEleven | Dtat_nse_program/nse_data_06-06-2025.py:125-126 | column 11 is `vol_ma_15min` and column 12 the signal type |
| Sustainability.LatestFive | Dtat_nse_program/nse_data_06-06-2025.py:107-118 | at most five records are fetched, latest first |
| Sustainability.LatestFiveAreLatest | Dtat_nse_program/nse_data_06-06-2025.py:107-118 | no matching record left out of the five is later than a fetched one |
| Sustainability.LatestFiveMembers | Dtat_nse_program/nse_data_06-06-2025.py:107-118 | the fetched records match the strike, side and time bound, number min(5, matching), and are all of them when at most five match |
| Sustainability.SustainedOnFive | Dtat_nse_program/nse_data_06-06-2025.py:120-126 | with exactly five matching records the check holds exactly when all five agree on the column read |
| Sustainability.SustainedAsWrittenReadsWrongColumn | Dtat_nse_program/nse_data_06-06-2025.py:125-126 | five records that share their signal but not their `vol_ma_15min` pass the intended check and fail the check as written |
| Sustainability.IrrelevantRecord | Dtat_nse_program/nse_data_06-06-2025.py:107-118 | a record of another strike or side, or later than now, changes neither the records fetched nor the outcome |
| Sustainability.SustainedCount | Dtat_nse_program/nse_data_06-06-2025.py:120-126 | sustained implies at least five matching records; when all matching records share one signal it is exactly that |
| SnapshotMetrics.SideSum | Dtat_nse_program/nsev.py:85-111 | the sum raises exactly when a record carrying the side lacks the key |
| SnapshotMetrics.SideSumOverItemsWithSide | Dtat_nse_program/nsev.py:109-111 | the sum ranges only over the items carrying the side |
| SnapshotMetrics.Pcr | Dtat_nse_program/nsev.py:87-89 | PCR times the CE total is the PE total when CE is non-zero, and PCR is 0 otherwise |
| SnapshotMetrics.PainBounds | Dtat_nse_program/nsev.py:95-106 | pain is non-negative for non-negative interest and zero at the settlement strike |
| SnapshotMetrics.PainsOf | Dtat_nse_program/nsev.py:95-104 | there are no more pain points than items |
| SnapshotMetrics.FirstMinIndex | Dtat_nse_program/nsev.py:105-106 | `index(min(...))` is an index of a least pain, and every earlier pain is strictly larger |
| SnapshotMetrics.MaxPain | Dtat_nse_program/nsev.py:95-106 | the loops building `strikes` and `pain_values` and the arg-min return the max-pain specification |
| SnapshotMetrics.FirstMinUnique | Dtat_nse_program/nsev.py:105-106 | the first least index is unique |
| SnapshotMetrics.PainsErrorSticks | Dtat_nse_program/nsev.py:95-104 | an error in the first items is the error of the whole loop |
| SnapshotMetrics.MaxPainIsLeastPain | Dtat_nse_program/nsev.py:95-106 | the max-pain strike is the first strike of least pain, or the ATM strike when no item has a strike |
| SnapshotMetrics.PainsOfStrikes | Dtat_nse_program/nsev.py:95-104 | each pain point's strike is the strike of some item |
| SnapshotMetrics.ProcessData | Dtat_nse_program/nsev.py:81-125 | `process_data` returns the snapshot specification, or its error |
| SnapshotMetrics.SnapshotFailures | Dtat_nse_program/nsev.py:81-125 | a snapshot fails exactly when `records` or the underlying value is missing, the expiry list is empty, or a sum or the pain loop raises |
| SnapshotMetrics.SnapshotProperties | Dtat_nse_program/nsev.py:81-125 | a snapshot's net flow is call minus put volume; its PCR is the OI ratio or 0; its ATM is a multiple of 50; its underlying is the payload's; its volumes are sums over the items carrying each side |
| HttpSession.NatToString | Dtat_nse_program/originalnse02-2025.py:91-92 | `str(n)` of a natural number is non-empty |
| HttpSession.SendSpec | Dtat_nse_program/originalnse02-2025.py:79-95 | a request changes neither the session nor the cookies |
| HttpSession.Read | Dtat_nse_program/originalnse02-2025.py:87-90 | `text()` always succeeds with the body; `json()` gives a document when there is one |
| HttpSession.TrySpec | Dtat_nse_program/originalnse02-2025.py:82-95 | a successful body is a document exactly when JSON was asked for |
| HttpSession.CloseSpec | Dtat_nse_program/TT2.py:90-92 | close never creates or forgets a session and changes neither cookies nor traffic |
| HttpSession.NiftyOptionChain.constructor | Dtat_nse_program/TT2.py:49-58 | a new client has no session and no cookies |
| HttpSession.NiftyOptionChain.Send | Dtat_nse_program/TT2.py:77 | one request follows SendSpec |
| HttpSession.NiftyOptionChain.InitializeSession | Dtat_nse_program/TT2.py:60-70 | `initialize_session` follows InitSpec |
| HttpSession.NiftyOptionChain.GetData | Dtat_nse_program/TT2.py:72-88 | `get_data` follows GetDataSpec |
| HttpSession.NiftyOptionChain.Close | Dtat_nse_program/TT2.py:90-92 | `close` follows CloseSpec |
| HttpSession.InitOutcome | Dtat_nse_program/originalnse02-2025.py:67-77 | a bootstrap replaces the cookies only on 200; a transport failure leaves no session and raises; otherwise the session is the new one |
| HttpSession.TryRequests | Dtat_nse_program/originalnse02-2025.py:82-95 | the `try` block makes no request on a closed session, otherwise one, or three after a 401 |
| HttpSession.GetDataRequests | Dtat_nse_program/originalnse02-2025.py:79-95 | `get_data` makes at most two data requests and two bootstraps, and begins with a bootstrap when there is no session |
| HttpSession.GetDataOk | Dtat_nse_program/TT2.py:82-83 | on a live session a 200 returns the body and keeps session and cookies |
| HttpSession.GetDataUnauthorized | Dtat_nse_program/TT2.py:78-81 | on a live session a 401 starts a new session and returns the second body whatever its status |
| HttpSession.GetDataUnexpected | Dtat_nse_program/TT2.py:84-85 | any other first status raises "Unexpected status code" naming it |
| HttpSession.ClosedSessionRaises | Dtat_nse_program/TT2.py:72-92 | a closed session raises before any request, and closing again changes nothing |
| OptionWorker.RunSpec | Dtat_nse_program/nsev.py:69-79 | one outcome per round |
| OptionWorker.Worker.constructor | Dtat_nse_program/nsev.py:22-34 | a new worker has no session and is running |
| OptionWorker.Worker.Send | Dtat_nse_program/nsev.py:48-67 | one request follows SendSpec |
| OptionWorker.Worker.InitializeSession | Dtat_nse_program/nsev.py:36-46 | `initialize_session` follows InitSpec |
| OptionWorker.Worker.TryFetch | Dtat_nse_program/nsev.py:51-63 | the `try` block follows TrySpec with JSON decoding |
| OptionWorker.Worker.GetOptionChainData | Dtat_nse_program/nsev.py:48-67 | `get_option_chain_data` follows GetJsonSpec: a failure inside the `try` re-bootstraps before it is raised |
| OptionWorker.Worker.Round | Dtat_nse_program/nsev.py:71-79 | one round fetches and processes as RoundSpec says |
| OptionWorker.Worker.Run | Dtat_nse_program/nsev.py:69-79 | `run` performs RunSpec's rounds while running, nothing once stopped, and sleeps 60 s after each snapshot and 10 s after each error |
| OptionWorker.Worker.Stop | Dtat_nse_program/nsev.py:127-128 | `stop` clears the flag and nothing else |
| OptionWorker.FailureReinitialises | Dtat_nse_program/nsev.py:48-67 | a failure after the session exists is followed by one more bootstrap; a failed first bootstrap is raised as it is; success returns the document |
| OptionWorker.RoundOnSuccess | Dtat_nse_program/nsev.py:69-79 | a live session answering 200 with JSON emits exactly the processed snapshot |
| OptionWorker.RoundOnBadJson | Dtat_nse_program/nsev.py:51-67 | a 200 body that is not JSON is an error after which the worker holds a new session |
| Monitor.Bounded | Dtat_nse_program/nsev.py:401-408 | appending to a full history and dropping the oldest keeps at most 30 entries |
| Monitor.LastN | Dtat_nse_program/nsev.py:401-408 | the last n elements number min(n, length) |
| Monitor.HistoryKeepsLatest | Dtat_nse_program/nsev.py:401-408 | after any arrivals the history is exactly the 30 latest snapshots in arrival order |
| Monitor.LastNOfLastN | Dtat_nse_program/nsev.py:401-408 | truncating early loses nothing later truncation would keep |
| Monitor.OptionMonitor.constructor | Dtat_nse_program/nsev.py:131-171 | an empty history and no latest snapshot |
| Monitor.OptionMonitor.UpdateData | Dtat_nse_program/nsev.py:401-411 | `update_data` stores the snapshot and leaves the history the 30 latest, the newest last |
| Monitor.OptionMonitor.UpdateUi | Dtat_nse_program/nsev.py:413-449 | the view is the one computed from the latest snapshot and the history |
| Monitor.PcrBandMonotone | Dtat_nse_program/nsev.py:460-470 | a larger PCR is never a more bearish band, and each threshold falls in the band below it |
| Monitor.FlowOf | Dtat_nse_program/nsev.py:479-482 | 'Call Buying Dominant' exactly for a positive net flow; zero counts as put buying |
| Monitor.EntrySignalsConsistent | Dtat_nse_program/nsev.py:490-534 | no signal without an earlier snapshot or a price move; call signals need a rising price and put signals a falling one; a warning never accompanies its own side's dominance |
| Monitor.Tabulate | Dtat_nse_program/nsev.py:536-599 | the row loop yields one label per row, label k being the labelling function at k |
| Monitor.HistoricalSignals | Dtat_nse_program/nsev.py:536-599 | the loop labels every history row with its row signal |
| Monitor.RowLabel | Dtat_nse_program/nsev.py:543-579 | the body of the loop gives the row's signal against its predecessor |
| Monitor.RowSignalShape | Dtat_nse_program/nsev.py:540-579 | row 0 is 'Neutral'; call and put conditions never both hold; call conditions give 'Call Buy: ...'; a warning is appended exactly when net flow and price change have opposite signs |
| Monitor.QuotesAt | Dtat_nse_program/nsev.py:619-627 | the CE and PE quotes of the first item at that strike, whatever its expiry, or none when no item is at that strike |
| Monitor.CardFor | Dtat_nse_program/nsev.py:604-668 | a card is for the strike it was asked for |
| Monitor.FirstError | Dtat_nse_program/nsev.py:601-668 | the values in order when every result succeeded; otherwise the error of the first that failed, and it fails exactly when one did |
| Monitor.CardsFrom | Dtat_nse_program/nsev.py:601-668 | one card per offset, each the card at ATM plus that offset; it fails exactly when one of them fails |
| Monitor.StrikeCardsShape | Dtat_nse_program/nsev.py:601-610 | five cards, at ATM, +100, +200, −100 and −200 |
| Monitor.CardContents | Dtat_nse_program/nsev.py:610-668 | OI change is CE ΔOI − PE ΔOI with a missing side counting 0; the skew exists exactly when both sides are shown; bullish means a difference above 5, bearish below −5 |
| StrikeSelection.Grid | Dtat_nse_program/originalnse02-2025.py:533-540 | the grid has eighteen strikes |
| StrikeSelection.GetRelevantStrikes | Dtat_nse_program/originalnse02-2025.py:533-540 | the two loops followed by `sorted` return the grid |
| StrikeSelection.SortedBuiltIsGrid | Dtat_nse_program/originalnse02-2025.py:533-540 | sorting the list the loops build gives the grid |
| StrikeSelection.GridProperties | Dtat_nse_program/originalnse02-2025.py:533-540 | strictly ascending from ATM − 400 to ATM + 450 with ATM ninth; a value is in it exactly when in range and a multiple of 50 away from ATM |
| StrikeSelection.BuildStrikeData | Dtat_nse_program/originalnse02-2025.py:570-575 | the filter loop returns the strike-data specification |
| StrikeSelection.StrikeDataErrorSticks | Dtat_nse_program/originalnse02-2025.py:570-575 | once a prefix raises, the whole loop does |
| StrikeSelection.StrikeDataLastWins | Dtat_nse_program/originalnse02-2025.py:570-575 | the filter raises exactly when some record lacks its expiry, or has the expiry but no strike; otherwise it maps exactly the selected strikes, each to its last selected record |
| StrikeSelection.StrikeDataRaises | Dtat_nse_program/originalnse02-2025.py:570-575 | the filter raises exactly when some record lacks its expiry, or has the chosen expiry but no strike |
| StrikeSelection.StrikeDataKeys | Dtat_nse_program/originalnse02-2025.py:570-575 | without an error the strikes kept are exactly those of the selected records |
| StrikeSelection.StrikeDataLatest | Dtat_nse_program/originalnse02-2025.py:570-575 | without an error each strike kept maps to the last selected record at that strike |
| StrikeSelection.SideRows | Dtat_nse_program/originalnse02-2025.py:579-642 | no more rows than strikes |
| StrikeSelection.CollectRows | Dtat_nse_program/originalnse02-2025.py:579-642 | the loop builds both side lists as SideRows says |
| StrikeSelection.SideRowsContents | Dtat_nse_program/originalnse02-2025.py:579-642 | every row of a side is at a relevant strike whose kept record has that side, built from that quote, and every such strike has a row |
| StrikeSelection.SideRowsAscending | Dtat_nse_program/originalnse02-2025.py:579-642 | the rows are in ascending strike order |
| StrikeSelection.TopFive | Dtat_nse_program/originalnse02-2025.py:664-676 | min(5, n) rows are kept |
| StrikeSelection.TopFiveProperties | Dtat_nse_program/originalnse02-2025.py:664-676 | the top rows are by descending volume and taken from the list; all are kept when there are at most five; each kept row has at least the volume of each dropped one |
| StrikeSelection.LeadersOf | Dtat_nse_program/originalnse02-2025.py:688-696 | the leaders exist exactly when each list has two rows, and are the first two strikes of each |
| StrikeSelection.PlacementOf | Dtat_nse_program/originalnse02-2025.py:644-658 | each row is exactly one of at, above or below ATM by comparing its strike |
| StrikeSelection.GridPlacement | Dtat_nse_program/originalnse02-2025.py:644-658 | on the grid, eight strikes are below ATM, the ninth is ATM and nine are above |
| StrikeSelection.ProcessAndDisplayData | Dtat_nse_program/originalnse02-2025.py:554-703 | `process_and_display_data` returns the display specification, or its error |
| StrikeSelection.DisplayProperties | Dtat_nse_program/originalnse02-2025.py:554-703 | a display's strikes are the grid around a multiple-of-50 ATM, its top lists are the top five of each side, and its leaders are their first strikes; it needs two strikes per side |
| StrikeSelection.TrendOf | Dtat_nse_program/originalnse02-2025.py:715-724 | 'N/A' exactly without a stored previous volume; otherwise Increasing, Decreasing or Stable by strict comparison |
| Sorting.SortDesc | Dtat_nse_program/originalnse02-2025.py:665-666 | `sort(reverse=True)` gives a permutation sorted by descending key |
| Sorting.SortDescStable | Dtat_nse_program/originalnse02-2025.py:665-676 | the sort is stable: the elements of any one key come out in their input order, so rows of equal volume keep their order |
| Sorting.SortAsc | Dtat_nse_program/originalnse02-2025.py:540 | `sorted` gives an ascending permutation |
| Sorting.Take | Dtat_nse_program/originalnse02-2025.py:667-668 | `xs[:n]` is the prefix of length min(n, length) |
| Sorting.TopNSelection | Dtat_nse_program/originalnse02-2025.py:664-676 | a top-n selection has min(n, length) elements, all from the input, and all of it for short inputs |
| Sorting.TopNDominates | Dtat_nse_program/originalnse02-2025.py:664-676 | a kept element's key is at least a dropped element's |
| Sorting.AscendingPermutationUnique | Dtat_nse_program/originalnse02-2025.py:540 | two ascending lists with the same elements are equal |
| Nutrunner.TableShape | script.js:49-86 | every table pattern has ten bars, each 0 or 1, the first 1 |
| Nutrunner.PatternsReadable | script.js:49-86 | the table is readable: every pattern has ten bars of 0 or 1 and reads back as its own character |
| Nutrunner.Known | script.js:92-97 | the known characters are characters of the table, no more than the text has |
| Nutrunner.BarsStep | script.js:92-97 | one more character adds its pattern, if the table has one, after the bars so far |
| Nutrunner.GenerateBarcode | script.js:44-101 | `generateBarcode` builds exactly the start pattern, the known characters' patterns and the stop pattern |
| Nutrunner.BarsShape | script.js:92-97 | for a readable table, ten bits per known character |
| Nutrunner.EncodeShape | script.js:44-101 | the pattern has 20 + 10 bars per known character, all 0 or 1, starts with the start pattern and ends with the stop pattern; an unknown character adds nothing |
| Nutrunner.CharOfPattern | script.js:49-86 | each table pattern reads back as its character, so the table is injective |
| Nutrunner.DecodeEncode | script.js:44-101 | for a readable table, the pattern reads back as the text's known characters |
| Nutrunner.Buttons | script.js:251-254 | previous is disabled exactly on step 1 and next exactly on step 6 |
| Nutrunner.GoTo | script.js:189-205 | going to a step leaves buttons matching that step |
| Nutrunner.NavigationSteps | script.js:189-205 | next and previous keep the step in 1..6, move it by one, do nothing at the bounds, and leave the buttons agreeing |
| Nutrunner.SwipeDecisions | script.js:958-971 | a swipe of at most 50 does nothing; a longer one acts as next or previous unless that button is disabled; the step stays in 1..6 |
| Nutrunner.Shift | script.js:647-652 | after a shift the chart holds at most 50 points |
| Nutrunner.ChartAsWrittenRepeatsLabel | script.js:640-655 | once the window is full, two points added as written both get the label 50 |
| Nutrunner.UpdateChartAsWritten | script.js:640-655 | a point added as the page adds it keeps the chart window: at most 50 points in three lists of one length, the new values last with the number of labels shown before as label, the older points kept or moved up by one, labels never decreasing and none above 50 |
| Nutrunner.ShiftAppend | script.js:647-652 | appending a point keeps every element while there is room, and drops exactly the oldest once 50 are shown |
| Nutrunner.LabelsAsWrittenWindow | script.js:640-655 | the labels as the page writes them stay bounded by the number shown, never decrease, and are 0, 1, 2, ... until the window fills |
| Nutrunner.UpdateChartWindow | script.js:640-655 | corrected: with the new point labelled by its number since the chart was cleared, the chart keeps the latest min(n, 50) points with consecutive labels, strictly increasing, and the new values last |
| Nutrunner.RoundJs | script.js:464-484 | `Math.round` is within a half, halves rounding up |
| Nutrunner.TightenSpec | script.js:444-475 | no more ticks than increments |
| Nutrunner.TighteningStopsWithin90 | script.js:444-487 | from zero, with the page's random increments, the tightening stops within 90 ticks |
| Nutrunner.ScannedBarcode | script.js:257-282 | a scanned barcode is 'ABC' followed by the four decimal digits of r, zero-padded, all table characters |
| Nutrunner.ScannedBarcodePattern | script.js:257-282 | a scanned barcode's pattern has 90 bars and reads back as the barcode |
| Nutrunner.OutcomeActions | script.js:499-563 | pass records PASS and advances; fail records FAIL and jumps to step 6; restart clears the cycle data and returns to step 1; only '1234' returns to step 1, any other password changes nothing |
| Nutrunner.ApplyKeepsInvariant | script.js:189-971 | every operator action keeps the step in 1..6, the buttons agreeing and the chart window valid |
| Nutrunner.TickKeepsInvariant | script.js:457-486 | a tool tick, with the label as written, keeps the step and buttons as they were and the chart window valid |
| Nutrunner.ButtonsKeepInvariant | script.js:189-971 | every action other than a tool tick keeps the step in 1..6 and the buttons agreeing |
| Nutrunner.InvariantAlways | script.js:189-971 | any sequence of operator actions keeps that invariant |
| Nutrunner.Station.constructor | script.js:1-16 | the page at load is at step 1 in pass mode with an empty chart |
| Nutrunner.Station.ShowStep | script.js:207-244 | `showStep` follows ShowStepSpec: step 4 clears the chart and, by the tightening start that `resetStep4` schedules (script.js:418-441), zeroes the torque and the angle |
| Nutrunner.Station.UpdateNavigationButtons | script.js:251-254 | the buttons are set from the step and nothing else changes |
| Nutrunner.Station.PreviousStep | script.js:189-196 | `previousStep` follows PrevSpec |
| Nutrunner.Station.NextStep | script.js:198-205 | `nextStep` follows NextSpec |
| Nutrunner.Station.HandleSwipe | script.js:958-971 | `handleSwipe` follows SwipeSpec |
| Nutrunner.Station.ScanBarcode | script.js:257-282 | `scanBarcode` follows ScanSpec |
| Nutrunner.Station.UpdateChart | script.js:640-655 | `updateChart` adds one point as the page does, labelled with the number of labels shown, and keeps the chart window valid; nothing else changes |
| Nutrunner.Station.StartTightening | script.js:452-454 | the tool values restart at zero |
| Nutrunner.Station.Tick | script.js:457-486 | one interval tick follows TickSpec |
| Nutrunner.Station.Tighten | script.js:444-487 | the interval follows TightenSpec |
| Nutrunner.Station.SimulatePass | script.js:499-523 | `simulatePass` follows PassSpec |
| Nutrunner.Station.SimulateFail | script.js:539-563 | `simulateFail` follows FailSpec |
| Nutrunner.Station.RestartCycle | script.js:883-909 | `restartCycle` follows RestartSpec |
| Nutrunner.Station.SubmitPassword | script.js:777-812 | the password is accepted exactly when it is '1234', and the page follows PasswordSpec |
| Histogram.PairFor | Dtat_nse_program/histogram.py:14-17 | the two parts sum to the target, the top is non-negative, and the base is the smaller of current and target |
| Histogram.VolumeBarsSpec | Dtat_nse_program/histogram.py:12-17 | one pair per current volume, each PairFor; it raises `IndexError` exactly when the target list is shorter |
| Histogram.VolumeBars | Dtat_nse_program/histogram.py:12-17 | the loop follows VolumeBarsSpec |
| Histogram.BarsReachTargets | Dtat_nse_program/histogram.py:12-17 | every bar is as tall as its target, so together they are exactly as tall as the targets, and no top part is negative |
| LetterPattern.Row | Dtat_nse_program/pattu.py:6-20 | a row has five characters |
| LetterPattern.Lines | Dtat_nse_program/pattu.py:5-21 | n lines take 6n characters |
| LetterPattern.PrintE | Dtat_nse_program/pattu.py:4-21 | the nested loops print the seven lines of the letter |
| LetterPattern.PrintPattern | Dtat_nse_program/pattu.py:23-25 | only 'e' prints anything |
| LetterPattern.CellShape | Dtat_nse_program/pattu.py:7-20 | the branch order gives exactly the letter's shape cell by cell |
| LetterPattern.LinesLayout | Dtat_nse_program/pattu.py:4-21 | line i sits at offset 6i, holds the row's cells and ends with a newline |
| LetterPattern.PrintedLetter | Dtat_nse_program/pattu.py:1-21 | the output is 7 lines of 5 characters: stars at columns 1–3 of rows 0 and 6, all of row 3, column 0 of rows 1–5, column 4 of rows 3–5, spaces elsewhere |

## Left out

- Networking: aiohttp requests, timeouts and headers are replaced by a sequence of replies given as input. A request made after the replies run out fails like a transport error.
- `fetch_nse_option_chain` (nse_data_06-06-2025.py:697-727) is left out, because it has no retry logic.
- SQLite storage is left out: table creation, `insert_*`, `fetch_sql_results` and `fetch_previous_data`. The stored rows are a plain `INSERT`.
- The hard-coded date and expiry filters of the queries, and their earliest-expiry sub-queries, become inputs. The model works on the grouped rows of one day and one expiry.
- The final `ORDER BY` of each query is not modelled. Rows come in table order.
- WindowEngine.TopThree: the order between rows of equal volume follows the input table, because SQLite leaves it open. No property depends on it.
- IvVolume.TopStrikes: the order between keys of equal volume follows the input, for the same reason.
- Sustainability.LatestFive: the order between records of equal `date_time` follows the table, because SQLite leaves the order of `ORDER BY date_time DESC` ties open.
- SQL `ROUND(..., 2)`, Python float rounding and `toFixed` are left out. Thresholds are stated on exact reals.
- Timestamps are whole seconds, without microseconds. Stored `date_time` text is a number of seconds.
- MarketClock.RunCycle models only the decision and the delay `run_cycle` computes. The `root.after` rescheduling, the pumping of asyncio tasks and the event loop are left out.
- The Qt thread that drives the worker and its signals are left out. Each clock reading given to `OptionWorker.Worker.Run` is one round, and `stop` takes effect before the next one.
- The re-initialisation does not close the previous aiohttp session, so the old one leaks. The model only numbers sessions.
- The session client of `TT2.py` is the same code as that of `originalnse02-2025.py`. It is modelled once, in `HttpSession`.
- The TT2.py GUI (mis-indented, so it cannot run) is left out.
- All GUI code is left out: tkinter, PySide6 and Treeview styling, matplotlib, and the DOM, audio and Chart.js calls of the page. Only the values shown are modelled.
- Randomness becomes parameters: the scan's random number, the torque and angle increments, and the next pass/fail choice.
- Nutrunner.Station.Tighten: `setTimeout` and `setInterval` are collapsed. A scheduled call happens at once, and one 100 ms tick is one `Tick`.
- Several DOM flows of the page are left out: `showPassSequence`, `showFailSequence`, `invalidScan`, `placeComponent`, `startCycle`, the keyboard shortcuts and the summary report's cycle time. Besides the display and the sounds, they only chain the modelled handlers.
- `get_next_update_time` and `check_signal_sustainability` in `nse_data_06-06-2025.py` are never called by that file, which only calls `is_market_hours`. They are modelled all the same, so the two findings about them are latent.
- `calculate_trend` in `originalnse02-2025.py` is never called by that file. It is modelled as `StrikeSelection.TrendOf` all the same.
- The typed quotes of `Chain` make every quote field a number. A quote field of another JSON type is not modelled.
- Chain.Records: `expiryDates` and `data` are always present, so the `KeyError` that a payload without either key raises (nsev.py:85-111, originalnse02-2025.py:570-573) is not modelled.
- Other files are not part of this model: `ivsckew02022025.py` (pandas and scipy), `app.py` (Dash) and `notification.py` (plyer).

## Findings

| source | as written | input that shows it | evidently intended | confidence | as-written member | corrected member |
|---|---|---|---|---|---|---|
| Dtat_nse_program/nse_data_06-06-2025.py:36-38 | after close means `hour >= 15 and minute >= 40` | 16:05 is scheduled for 16:10, outside trading hours | after 15:40 the next update is 09:00:00 the next day | not executed | MarketClock.AfterCloseConjunctionMisses | MarketClock.NextUpdateTime |
| Dtat_nse_program/nse_data_06-06-2025.py:226-227 | `ABS(total_oi - opposite_oi) / opposite_oi < 0.2` divides two INTEGER sums | CE OI and volume 150 against PE 100 is 'Balanced' | both measures within 20% of the opposite side | not executed | SignalRules.BalancedAsWrittenAcceptsFiftyPercent | SignalRules.BalancedRatioWithinTwentyPercent |
| Dtat_nse_program/nse_data_06-06-2025.py:546-549 | the percentile, a fraction in [0, 1], is compared with 80 and 20 | a put at percentile 0.9 with IV up 5% is 'Monitor' | thresholds 0.8 and 0.2 on the fraction | not executed | IvVolume.IvTradingPercentileCounterexample | IvVolume.IvTradingPercentileBands |
| Dtat_nse_program/nse_data_06-06-2025.py:125-126 | sustainability compares `record[11]`, the `vol_ma_15min` column | five records with one signal and different averages are not sustained | the signal column, 12 | not executed | Sustainability.SustainedAsWrittenReadsWrongColumn | Sustainability.SustainedCount |
| script.js:640-655 | the new label is `labels.length` | once 50 points are shown every new label is 50 | a label numbering the point | not executed | Nutrunner.ChartAsWrittenRepeatsLabel | Nutrunner.UpdateChartWindow |
