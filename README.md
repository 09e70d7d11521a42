# IexService historical-price reconciler, modelled in Dafny

This project models the cache-or-fetch reconciler of the fuse-starter
`IexService`. The service answers "historical prices for symbol S over range
R (optionally on date D)". It serves from its price repository what the
repository already holds. Whatever is missing it fetches from the IEX Cloud
historical-prices endpoint, saves and returns.

The model has these modules:

- `RangeParsing`: the range descriptor (`"5d"`, `"3m"`, `"ytd"`, `"max"`,
  `"date"`). It is split into its letters (`getAlphabeticChars`) and its digits
  (`getIntFromString`, with `Integer.parseInt` and its overflow exception). The
  unit table (`getTotalNumberOfDays`) turns the pair into a day count, using
  Java `int` arithmetic (two's-complement wrap-around is modelled).
- `Dates`: days are integers from an epoch. `Calendar` supplies the three
  renderings the service uses: the compact `YYYYMMdd` form sent upstream, the
  ISO form the repository keys on, and the day of the year. `newDate` and
  `dateFormat` (compact to ISO) are also here.
- `Prices`: the price record and the repository's two case-insensitive finders.
- `Collaborators`: the repository and the upstream client, as classes. The
  repository is a `seq` of rows that `SaveAll` appends to. The upstream client
  answers through a fixed function and records every request in a ghost log.
- `Reconciliation`: the whole request as a function of the repository rows,
  the upstream's answers, the calendar and today. It gives the result or
  exception, the rows afterwards and the upstream calls in order. The lemmas
  state what this means:
  - the cold path;
  - the sentinels;
  - which days the backfill visits and fetches;
  - how many calls it makes;
  - what ends up stored;
  - the single-date path.
- `Service`: the `IexService` class. Its four methods (`UpdateHistoricalDB`,
  `FindHistoricalPrices` with its day loop, `GetPricesByDate` and
  `GetAllHistoricalPrices`) update the repository and the client in place. Each
  is proved to return, store and call exactly what `Reconciliation` says.
- `Seqs`, `Chars`, `Wrappers`: helpers. These are order-preserving filtering,
  ASCII character classes, and `Option`/`Result` with the two exceptions the
  code raises.

What the code does at its edges, and the model with it:

- An unrecognised unit (`"3q"`) raises no error. It falls through the unit
  table to 0 days, so the whole range is refetched (`UnknownUnitRefetches`).
- Saving appends. Every saved record gets a fresh generated id
  (`IexHistoricalPrice.java:27-30`), so saving a record already stored stores
  it again. Duplicates for a (symbol, date) arise on the refetch-all path
  (day count 0), which re-saves every day the store already holds; on the
  backfill path, when a dated fetch is answered with records of other days
  that are already stored; and on the cold path only when the answer itself
  repeats a date, since the store holds no row of the symbol there.
- The backfill walks from the oldest day to the newest (offsets N down to 1).
  Today itself is never visited.
- A count below -1 (reachable only through `int` wrap-around) returns an empty
  list without touching anything (`NegativeCountIsEmpty`). The count -1 is
  reached by `date` with any magnitude and by wrapped counts such as
  `286331153m`; all of them take the single-date path with the caller's range
  (`SentinelCountIsSingleDate`).
- Upstream and repository failures are not caught by the code and are not part
  of the model.

## Model

| member | source | states |
|---|---|---|
| RangeParsing.GetAlphabeticChars | src/main/java/org/galatea/starter/service/IexService.java:75-84 | the scanning loop returns exactly the letters of the descriptor, in order |
| RangeParsing.AlphabeticCharsAreTheLetters | src/main/java/org/galatea/starter/service/IexService.java:75-84 | the unit is never longer than the descriptor; a character is in it iff it is a letter of the input; extracting letters distributes over concatenation, so order is kept |
| RangeParsing.GetIntFromString | src/main/java/org/galatea/starter/service/IexService.java:91-105 | the scanning loop, including its `hasNum` flag, gives exactly `IntFromString` |
| RangeParsing.IntFromString | src/main/java/org/galatea/starter/service/IexService.java:91-105 | no digit gives 0; otherwise the value of all digits read as one numeral, never negative; a NumberFormatException exactly when that value exceeds the largest `int` |
| RangeParsing.ParseInt | src/main/java/org/galatea/starter/service/IexService.java:102 | `Integer.parseInt` of a digit run succeeds iff its value fits an `int`, and then returns that value |
| RangeParsing.MagnitudeOverflow | src/main/java/org/galatea/starter/service/IexService.java:100-104 | a digit run above 2147483647 raises NumberFormatException |
| RangeParsing.DecimalRoundTrip | src/main/java/org/galatea/starter/service/IexService.java:96-102 | reading back the decimal numeral of n gives n |
| RangeParsing.RangeDescriptorRoundTrip | src/main/java/org/galatea/starter/service/IexService.java:75-105 | a descriptor written as numeral plus unit parses back into that magnitude and that unit |
| RangeParsing.UnitOnlyDescriptor | src/main/java/org/galatea/starter/service/IexService.java:91-105 | a letters-only descriptor (`max`, `ytd`, `date`) has magnitude 0 and is its own unit |
| RangeParsing.Wrap | src/main/java/org/galatea/starter/service/IexService.java:145-151 | Java `int` arithmetic: the result is congruent to the exact value modulo 2^32 (the low 32 bits), and a value that fits is unchanged |
| RangeParsing.TotalNumberOfDays | src/main/java/org/galatea/starter/service/IexService.java:140-160 | `ytd` gives a day of the year in 1..366; `max` and every unit outside the table give 0; a negative count comes only from `date` or a scaled unit (d, w, m, y) |
| RangeParsing.DayCountTable | src/main/java/org/galatea/starter/service/IexService.java:140-160 | d gives n, w gives 7n, m gives 30n+1, y gives 365n, ytd gives today's day of year, max gives 0, date gives -1, any other unit gives 0 |
| RangeParsing.DayCountSign | src/main/java/org/galatea/starter/service/IexService.java:140-160 | without overflow, the count is negative iff the unit is `date`; it is 0 iff the unit is `max`, unknown, or d/w/y with magnitude 0 |
| RangeParsing.DayCountWraps | src/main/java/org/galatea/starter/service/IexService.java:145-148 | 286331153 months wrap exactly to the single-date sentinel -1; 306783379 weeks wrap to a negative count |
| Dates.NewDate | src/main/java/org/galatea/starter/service/IexService.java:128-132 | the day i days before today is earlier than today iff i > 0 |
| Dates.DateFormat | src/main/java/org/galatea/starter/service/IexService.java:112-121 | succeeds iff the date is eight digits, giving a dashed ISO date whose digits are the input's; otherwise a ParseException |
| Dates.DateFormatOfCompact | src/main/java/org/galatea/starter/service/IexService.java:112-121 | normalising the compact form of an ISO date gives that date back |
| Dates.Compact | src/main/java/org/galatea/starter/service/IexService.java:112-121 | the inverse of `dateFormat`: removing the dashes of an ISO date gives an eight-digit compact date |
| Prices.BySymbolMembers | src/main/java/org/galatea/starter/domain/rpsy/IexHistoricalPricesRpsy.java:15 | the symbol finder returns exactly the stored rows whose symbol matches ignoring case |
| Prices.BySymbolAndDateMembers | src/main/java/org/galatea/starter/domain/rpsy/IexHistoricalPricesRpsy.java:23 | the date finder returns exactly the stored rows of the symbol (ignoring case) on that date |
| Prices.BySymbolAndDateAppend | src/main/java/org/galatea/starter/domain/rpsy/IexHistoricalPricesRpsy.java:23 | after appending rows, the date finder returns its old answer followed by the matches among the new rows |
| Prices.NothingOnDate | src/main/java/org/galatea/starter/domain/rpsy/IexHistoricalPricesRpsy.java:23 | rows of other dates never answer a date lookup |
| Prices.CachedStaysCached | src/main/java/org/galatea/starter/domain/rpsy/IexHistoricalPricesRpsy.java:37 | saving never makes a cached (symbol, date) uncached |
| Prices.CaseInsensitiveFinders | src/main/java/org/galatea/starter/domain/rpsy/IexHistoricalPricesRpsy.java:15-23 | symbols that differ only in case find the same rows, by symbol and by symbol and date |
| Collaborators.PriceStore.Count | src/main/java/org/galatea/starter/service/IexService.java:242 | the count is the number of stored rows |
| Collaborators.PriceStore.FindBySymbolIgnoreCase | src/main/java/org/galatea/starter/domain/rpsy/IexHistoricalPricesRpsy.java:15 | returns the symbol's rows (in store order, see below) and changes nothing |
| Collaborators.PriceStore.FindBySymbolIgnoreCaseAndDate | src/main/java/org/galatea/starter/domain/rpsy/IexHistoricalPricesRpsy.java:23 | returns the rows of the symbol on the date (in store order, see below) and changes nothing |
| Collaborators.PriceStore.SaveAll | src/main/java/org/galatea/starter/domain/rpsy/IexHistoricalPricesRpsy.java:37 | the store becomes the old rows followed by the saved records |
| Collaborators.CloudClient.GetAllHistoricalPrices | src/main/java/org/galatea/starter/service/IexCloudClient.java:23-25 | returns the upstream's answer to (symbol, range, date) and logs exactly that one request |
| Service.IexService.UpdateHistoricalDB | src/main/java/org/galatea/starter/service/IexService.java:169-175 | exactly one upstream call with the arguments unchanged; the answer is appended to the store and returned |
| Service.IexService.VisitDayCheck | src/main/java/org/galatea/starter/service/IexService.java:189-201 | one loop iteration is exactly one more step of `Backfill`: result, store and call log |
| Service.IexService.FindHistoricalPrices | src/main/java/org/galatea/starter/service/IexService.java:185-204 | the loop from amtDays down to 1 appends to the accumulator, and leaves store and call log, exactly as `Backfill` over today-amtDays, ..., today-1 does (nothing when amtDays < 1) |
| Service.IexService.GetPricesByDate | src/main/java/org/galatea/starter/service/IexService.java:215-227 | returns, stores and calls exactly what `ByDate` says |
| Service.IexService.DispatchOnDays | src/main/java/org/galatea/starter/service/IexService.java:250-261 | dispatch on the day count: 0 refetches; -1 without a date returns empty; -1 with a date takes the single-date path; a positive count backfills; otherwise empty (as `Dispatch`) |
| Service.IexService.GetAllHistoricalPrices | src/main/java/org/galatea/starter/service/IexService.java:237-263 | returns, stores and calls exactly what `Reconcile` says |
| Reconciliation.Update | src/main/java/org/galatea/starter/service/IexService.java:169-175 | one call with the caller's arguments; the result is what the store gains |
| Reconciliation.VisitDayCallCount | src/main/java/org/galatea/starter/service/IexService.java:194-201 | a visit calls upstream exactly when the current store has nothing for the day |
| Reconciliation.ByDate | src/main/java/org/galatea/starter/service/IexService.java:215-227 | raises iff the date is not eight digits, and then changes nothing; otherwise keeps the gathered records as a prefix and only grows the store; a call is made only when nothing was gathered and the store has no row for the symbol on the ISO date, with the caller's raw date; without a call the result is the gathered records followed by the stored rows of that date |
| Reconciliation.Dispatch | src/main/java/org/galatea/starter/service/IexService.java:250-261 | only the single-date count -1 can raise, and then nothing changes; a non-positive count makes at most one call, and a negative one calls only at the count -1, with a date |
| Reconciliation.Reconcile | src/main/java/org/galatea/starter/service/IexService.java:237-263 | an exception changes nothing; a cold symbol costs exactly one call |
| Reconciliation.Window | src/main/java/org/galatea/starter/service/IexService.java:188-189 | the days visited, oldest first: the i-th is first + i |
| Reconciliation.MissingDaysMembers | src/main/java/org/galatea/starter/service/IexService.java:194 | a day is missing iff it is in the window and the starting store holds nothing for it on that ISO date |
| Reconciliation.BackfillSavesEveryResponse | src/main/java/org/galatea/starter/service/IexService.java:194-196 | after the loop the store is the old rows followed by every upstream answer, in call order |
| Reconciliation.BackfillReturnsOnlyStored | src/main/java/org/galatea/starter/service/IexService.java:194-201 | every record the loop returns is in the store afterwards |
| Reconciliation.BackfillCallsForMissingDays | src/main/java/org/galatea/starter/service/IexService.java:188-196 | whatever the upstream answers, the calls are those of a fetch plan: days of the window the starting store lacks, strictly increasing (oldest first, none twice), each with the original symbol and range and the day's compact date |
| Reconciliation.BackfillCallsAtMostMissing | src/main/java/org/galatea/starter/service/IexService.java:194-196 | the loop never calls more often than the number of days missing from the starting store |
| Reconciliation.BackfillAllCached | src/main/java/org/galatea/starter/service/IexService.java:197-201 | when every day is stored: no call, store unchanged, result is each day's stored rows in day order |
| Reconciliation.BackfillExact | src/main/java/org/galatea/starter/service/IexService.java:185-204 | when each day's answer carries that day's date: exactly one call per missing day, oldest first, with the original range and the day's compact date; result is each day's stored-or-fetched rows in day order; every answer saved |
| Reconciliation.ColdMeansUnknownSymbol | src/main/java/org/galatea/starter/service/IexService.java:242-243 | the cold test (empty store, or no symbol match) holds iff no stored row has the symbol ignoring case |
| Reconciliation.ColdIgnoresCase | src/main/java/org/galatea/starter/service/IexService.java:242-243 | requests whose symbols differ only in case are both cold or both warm, and find the same rows on every date |
| Reconciliation.ColdPath | src/main/java/org/galatea/starter/service/IexService.java:242-245 | unknown symbol: exactly one call with the caller's arguments, its answer appended and returned, no parsing or lookup |
| Reconciliation.ExceptionsChangeNothing | src/main/java/org/galatea/starter/service/IexService.java:237-263 | an exception leaves the store untouched and makes no call; a ParseException only for a date that is not eight digits |
| Reconciliation.DispatchStoreGrows | src/main/java/org/galatea/starter/service/IexService.java:250-261 | every dispatch branch leaves the store as the old rows plus every answer, in call order |
| Reconciliation.DispatchResultIsStored | src/main/java/org/galatea/starter/service/IexService.java:250-261 | every dispatch branch returns only stored records |
| Reconciliation.StoreGrowsByResponses | src/main/java/org/galatea/starter/service/IexService.java:169-175 | after any request the store is the old rows plus every upstream answer, in call order |
| Reconciliation.ResultIsStored | src/main/java/org/galatea/starter/service/IexService.java:237-263 | every record returned is in the store afterwards |
| Reconciliation.MaxAlwaysRefetches | src/main/java/org/galatea/starter/service/IexService.java:251-252 | `max` on a known symbol is one full refetch, saved and returned |
| Reconciliation.UnknownUnitRefetches | src/main/java/org/galatea/starter/service/IexService.java:140-160 | a unit outside the table on a known symbol is one full refetch with the caller's arguments |
| Reconciliation.ZeroCountRefetches | src/main/java/org/galatea/starter/service/IexService.java:248-252 | on a known symbol, any range whose day count is 0 (`0d`, `0w`, `0y`, `max`, an unknown unit) is one full refetch with the caller's arguments, saved and returned |
| Reconciliation.PositiveCountIsBackfill | src/main/java/org/galatea/starter/service/IexService.java:248-259 | on a known symbol, any range whose day count n is positive (`d`, `w`, `m`, `y`, `ytd`) is exactly the backfill over the n days before today |
| Reconciliation.SentinelCountIsSingleDate | src/main/java/org/galatea/starter/service/IexService.java:248-257 | on a known symbol, any range whose day count is -1 (`date`, `5date`, `286331153m`): no date gives empty with no write and no call; a malformed date raises ParseException and changes nothing; a stored date returns its stored rows with no call; a missing date is one fetch with the caller's range and raw date, saved and returned |
| Reconciliation.NegativeCountIsEmpty | src/main/java/org/galatea/starter/service/IexService.java:248-261 | on a known symbol, a day count below -1 returns empty, writes nothing and calls nothing |
| Reconciliation.DateSentinelWithoutDate | src/main/java/org/galatea/starter/service/IexService.java:253-256 | `date` without a date returns empty, no write, no call |
| Reconciliation.DateRangeIsByDate | src/main/java/org/galatea/starter/service/IexService.java:253-257 | `date` with a date is the single-date path |
| Reconciliation.SingleDate | src/main/java/org/galatea/starter/service/IexService.java:215-227 | malformed date: ParseException before any access; stored date: its rows, no call; missing date: one call with the raw date, saved and returned |
| Reconciliation.DayRangeIsBackfill | src/main/java/org/galatea/starter/service/IexService.java:248-259 | an `<n>d` request on a known symbol is the backfill over today-n ... today-1 |
| Reconciliation.DayRangeAllCached | src/main/java/org/galatea/starter/service/IexService.java:185-204 | an `<n>d` request with every day stored makes no call, changes nothing and returns the stored rows day by day |
| Reconciliation.DayRangeFetchesMissingDays | src/main/java/org/galatea/starter/service/IexService.java:185-204 | an `<n>d` request makes one call per missing day, oldest first, and returns the in-order concatenation of per-day rows |
| Reconciliation.DayRangeCallsBeforeToday | src/main/java/org/galatea/starter/service/IexService.java:188-196 | whatever the upstream answers, an `<n>d` request calls for a strictly increasing sequence of days among today-n ... today-1 that the starting store lacks, so never for today, never twice for a day, oldest first, and no more often than the store was missing days |
| Reconciliation.DayRangeOfNumeral | src/main/java/org/galatea/starter/service/IexService.java:248-250 | every numeral followed by `d` parses as a day range of that length |
| Reconciliation.WrappedMonthCountTakesDatePath | src/main/java/org/galatea/starter/service/IexService.java:146-148 | `286331153m` on a known symbol without a date returns empty and calls nothing, because the month count wraps to -1 |

## Left out

- `getAllSymbols` and `getLastTradedPriceForSymbols` (`IexService.java:52-68`): one-line forwards to another HTTP client with no logic of their own.
- The HTTP client behind `IexCloudClient` is an abstract function of (symbol, range, date). The model assumes it answers the same request the same way and never fails. Transport errors, retries and tokens are not modelled.
- The repository is a sequence of rows. Persistence failures, `findById`, `save` and the generated `id` are not modelled: a price is a value, and two saved copies are two equal rows.
- The clock: today is a parameter (`LocalDate.now()`, `IexService.java:129, 153`). Calendar arithmetic is integer day numbers. The `YYYYMMdd` week-year pattern and `LocalDate.toString` are abstract functions of the day in `Calendar`, so the model does not capture week-year rendering at a year's edge.
- `dateFormat` is modelled by the substring form on line 120 of `IexService.java`, not by the lenient `SimpleDateFormat` round trip on lines 114-118. The model accepts exactly eight ASCII digits and raises a ParseException otherwise. It does not roll out-of-range fields over: for `"20200230"` the code looks up `2020-03-01`, the model `2020-02-30`. It also rejects the shorter, longer or signed strings the lenient parser takes: the last field `dd` absorbs whatever digits remain, so `"2020061"` gives `2020-06-01` in the code and a ParseException in the model.
- The repository's finders declare no ordering (`IexHistoricalPricesRpsy.java:15, 23`). The model returns their rows in the order they were saved. Every statement about the order of returned records depends on that choice.
- `Character.isAlphabetic` and `Character.isDigit` accept all Unicode letters and digits. The model uses ASCII letters and digits, and compares symbols ignoring ASCII case only.
- `BigDecimal` and `BigInteger` price fields are `real` and `int`; no arithmetic is done on them.
- Logging and the JPA/JSON annotations.
- Concurrent requests that race on the "is this day stored?" check: the model is sequential.
- DayCountTable: states the unit table only for magnitudes whose day count fits an `int` (n * 365 ≤ 2147483647). Beyond that the counts wrap, as `DayCountWraps` shows.
- DayCountSign: holds only under the same no-overflow bound.
- BackfillExact: assumes the upstream answers each day's request with records of that day, and that distinct days have distinct ISO dates. Without these, a fetched day's rows can make a later day look stored, and rows of days already stored are saved again as duplicates. `BackfillCallsAtMostMissing` and `BackfillCallsForMissingDays` hold with no assumption.
- DayRangeFetchesMissingDays: same assumptions as `BackfillExact`.
