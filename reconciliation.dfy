/** The reconciler as a function of the store's rows, the upstream's answers,
    the calendar and today: what it returns, what the store holds afterwards
    and which upstream calls it makes, in order. The service methods are
    proved to behave exactly like this; the lemmas say what it means. */
module Reconciliation {
  import opened Seqs
  import opened Wrappers
  import opened Prices
  import opened RangeParsing
  import opened Dates
  import opened Collaborators

  /** A run in progress: records gathered, store rows, upstream calls made. */
  datatype Trace = Trace(result: seq<Price>, rows: seq<Price>, calls: seq<Call>)

  /** A finished request: its result or exception, store rows, upstream calls. */
  datatype Outcome = Outcome(result: Result<seq<Price>>, rows: seq<Price>, calls: seq<Call>)

  /** Everything the upstream answered to `calls`, in call order. */
  function Responses(respond: Upstream, calls: seq<Call>): seq<Price> {
    if calls == [] then []
    else
      var c := calls[|calls| - 1];
      Responses(respond, calls[..|calls| - 1]) + respond(c.symbol, c.range, c.date)
  }

  lemma ResponsesOfOne(respond: Upstream, c: Call)
    ensures Responses(respond, [c]) == respond(c.symbol, c.range, c.date)
  {
    assert [c][..0] == [];
  }

  /** updateHistoricalDB: one upstream call; everything it returns is saved and returned. */
  function Update(respond: Upstream, rows: seq<Price>, symbol: string, range: string,
                  date: Option<string>): (o: Outcome)
    ensures o.result.Ok? && o.rows == rows + o.result.value
    ensures o.calls == [Call(symbol, range, date)]
  {
    var got := respond(symbol, range, date);
    Outcome(Ok(got), rows + got, [Call(symbol, range, date)])
  }

  // ---------------------------------------------------------------------------
  // findHistoricalPrices

  /** One iteration of the backfill loop: serve `day` from the store, or fetch
      it with the original range and the day's compact date and save it. */
  function VisitDay(respond: Upstream, cal: Calendar, symbol: string, range: string,
                    t: Trace, day: Day): Trace
  {
    var stored := BySymbolAndDate(t.rows, symbol, cal.iso(day));
    if stored == [] then
      var got := respond(symbol, range, Some(cal.compact(day)));
      Trace(t.result + got, t.rows + got, t.calls + [Call(symbol, range, Some(cal.compact(day)))])
    else
      Trace(t.result + stored, t.rows, t.calls)
  }

  /** The first `k` iterations of the backfill loop, which visits `first`,
      `first + 1`, ... in that order, starting from store `rows`. */
  function Backfill(respond: Upstream, cal: Calendar, symbol: string, range: string,
                    rows: seq<Price>, first: Day, k: nat): Trace
  {
    if k == 0 then Trace([], rows, [])
    else VisitDay(respond, cal, symbol, range,
                  Backfill(respond, cal, symbol, range, rows, first, k - 1), first + k - 1)
  }

  // ---------------------------------------------------------------------------
  // getPricesByDate

  /** The single-date lookup, appending to `acc`: normalise the date, serve it
      from the store, and fetch it with the caller's raw date only when
      nothing at all has been gathered. */
  function ByDate(respond: Upstream, rows: seq<Price>, symbol: string, range: string,
                  date: string, acc: seq<Price>): (o: Outcome)
    ensures o.result.Err? <==> !IsCompactDate(date)
    ensures o.result.Err? ==> o.rows == rows && o.calls == []
    ensures o.result.Ok? ==> acc <= o.result.value && rows <= o.rows
    ensures o.calls != [] ==> acc == [] && o.calls == [Call(symbol, range, Some(date))]
    ensures o.calls != [] ==> IsCompactDate(date) && BySymbolAndDate(rows, symbol, DateFormat(date).value) == []
    ensures o.result.Ok? && o.calls == [] ==>
              o.result.value == acc + BySymbolAndDate(rows, symbol, DateFormat(date).value)
  {
    match DateFormat(date)
    case Err(e) => Outcome(Err(e), rows, [])
    case Ok(iso) =>
      var found := acc + BySymbolAndDate(rows, symbol, iso);
      if found == [] then
        var got := respond(symbol, range, Some(date));
        Outcome(Ok(found + got), rows + got, [Call(symbol, range, Some(date))])
      else
        Outcome(Ok(found), rows, [])
  }

  // ---------------------------------------------------------------------------
  // getAllHistoricalPrices

  /** A finished backfill: everything gathered is the result. */
  function Finished(t: Trace): Outcome {
    Outcome(Ok(t.result), t.rows, t.calls)
  }

  /** The store holds nothing for the symbol (or nothing at all). */
  predicate Cold(rows: seq<Price>, symbol: string) {
    |rows| == 0 || BySymbol(rows, symbol) == []
  }

  /** The warm path once the range is parsed: dispatch on the day count. */
  function Dispatch(respond: Upstream, cal: Calendar, rows: seq<Price>, symbol: string,
                    range: string, date: Option<string>, today: Day, amtDays: int): (o: Outcome)
    ensures o.result.Err? ==> amtDays == -1 && o.rows == rows && o.calls == []
    ensures amtDays <= 0 ==> |o.calls| <= 1
    ensures amtDays < 0 && o.calls != [] ==> amtDays == -1 && date.Some?
  {
    if amtDays == 0 then Update(respond, rows, symbol, range, date)
    else if amtDays == -1 then
      if date.None? then Outcome(Ok([]), rows, [])
      else ByDate(respond, rows, symbol, range, date.value, [])
    else if amtDays > 0 then
      Finished(Backfill(respond, cal, symbol, range, rows, today - amtDays, amtDays))
    else Outcome(Ok([]), rows, [])
  }

  /** getAllHistoricalPrices: a symbol the store does not know is refetched
      whole; otherwise the range is parsed and its day count dispatched on. */
  function Reconcile(respond: Upstream, cal: Calendar, rows: seq<Price>, symbol: string,
                     range: string, date: Option<string>, today: Day): (o: Outcome)
    ensures o.result.Err? ==> o.rows == rows && o.calls == []
    ensures Cold(rows, symbol) ==> |o.calls| == 1
  {
    if Cold(rows, symbol) then Update(respond, rows, symbol, range, date)
    else
      match IntFromString(range)
      case Err(e) => Outcome(Err(e), rows, [])
      case Ok(rangeLength) =>
        Dispatch(respond, cal, rows, symbol, range, date, today,
                 TotalNumberOfDays(AlphabeticChars(range), rangeLength, cal.dayOfYear(today)))
  }

  // ---------------------------------------------------------------------------
  // Reference views of the backfill

  /** The days `first`, ..., `first + k - 1`, oldest first. */
  function Window(first: Day, k: nat): (w: seq<Day>)
    ensures |w| == k
    ensures forall i :: 0 <= i < k ==> w[i] == first + i
  {
    if k == 0 then [] else Window(first, k - 1) + [first + k - 1]
  }

  /** The days of the window the store `rows` holds nothing for, oldest first. */
  function MissingDays(rows: seq<Price>, symbol: string, cal: Calendar, first: Day, k: nat): seq<Day> {
    if k == 0 then []
    else
      var d := first + k - 1;
      MissingDays(rows, symbol, cal, first, k - 1) + (if Cached(rows, symbol, cal.iso(d)) then [] else [d])
  }

  /** A day is missing exactly when it lies in the window and the store
      holds nothing for it. */
  lemma {:induction false} MissingDaysMembers(rows: seq<Price>, symbol: string, cal: Calendar, first: Day, k: nat)
    ensures forall d :: d in MissingDays(rows, symbol, cal, first, k)
                        <==> first <= d < first + k && !Cached(rows, symbol, cal.iso(d))
    decreases k
  {
    if k > 0 {
      MissingDaysMembers(rows, symbol, cal, first, k - 1);
    }
  }

  /** One upstream call per day, with the range and the day's compact date. */
  function CallsFor(symbol: string, range: string, cal: Calendar, days: seq<Day>): (cs: seq<Call>)
    ensures |cs| == |days|
  {
    if days == [] then []
    else CallsFor(symbol, range, cal, days[..|days| - 1])
         + [Call(symbol, range, Some(cal.compact(days[|days| - 1])))]
  }

  /** What a day contributes: its stored rows if there are any, otherwise the
      upstream's answer for it. */
  function PerDay(respond: Upstream, cal: Calendar, symbol: string, range: string,
                  rows: seq<Price>, d: Day): seq<Price>
  {
    if Cached(rows, symbol, cal.iso(d)) then BySymbolAndDate(rows, symbol, cal.iso(d))
    else respond(symbol, range, Some(cal.compact(d)))
  }

  /** The per-day contributions of `days`, concatenated in order. */
  function Served(respond: Upstream, cal: Calendar, symbol: string, range: string,
                  rows: seq<Price>, days: seq<Day>): seq<Price>
  {
    if days == [] then []
    else Served(respond, cal, symbol, range, rows, days[..|days| - 1])
         + PerDay(respond, cal, symbol, range, rows, days[|days| - 1])
  }

  /** The upstream answers a dated request only with records of that date. */
  predicate DatedAnswer(respond: Upstream, cal: Calendar, symbol: string, range: string, d: Day) {
    forall p :: p in respond(symbol, range, Some(cal.compact(d))) ==> p.date == cal.iso(d)
  }

  /** Every day of the window is answered with records of that day only. */
  predicate AnswersPerDay(respond: Upstream, cal: Calendar, symbol: string, range: string,
                          first: Day, k: nat)
  {
    forall d :: first <= d < first + k ==> DatedAnswer(respond, cal, symbol, range, d)
  }

  /** Distinct days of the window have distinct store dates. */
  predicate DistinctIsoDates(cal: Calendar, first: Day, k: nat) {
    forall d1, d2 :: first <= d1 < first + k && first <= d2 < first + k && d1 != d2
                     ==> cal.iso(d1) != cal.iso(d2)
  }

  /** The store is the starting rows followed by every upstream answer, in call order. */
  predicate SavesEveryResponse(respond: Upstream, rows: seq<Price>, t: Trace) {
    t.rows == rows + Responses(respond, t.calls)
  }

  /** Everything gathered is in the store. */
  predicate ReturnsOnlyStored(t: Trace) {
    forall p :: p in t.result ==> p in t.rows
  }

  /** `days` may be fetched for the window `first`, ..., `first + k - 1`:
      each is a day of the window that the store `rows` holds nothing for,
      and they are strictly increasing, so oldest first and none twice. */
  predicate FetchPlan(days: seq<Day>, rows: seq<Price>, symbol: string, cal: Calendar, first: Day, k: nat) {
    && (forall i :: 0 <= i < |days| ==> first <= days[i] < first + k && !Cached(rows, symbol, cal.iso(days[i])))
    && (forall i, j :: 0 <= i < j < |days| ==> days[i] < days[j])
  }

  // ---------------------------------------------------------------------------
  // Backfill properties

  /** The `k`-th visit, spelled out. */
  lemma BackfillUnfold(respond: Upstream, cal: Calendar, symbol: string, range: string,
                       rows: seq<Price>, first: Day, k: nat)
    requires k > 0
    ensures Backfill(respond, cal, symbol, range, rows, first, k)
            == VisitDay(respond, cal, symbol, range,
                        Backfill(respond, cal, symbol, range, rows, first, k - 1), first + k - 1)
  {
  }

  /** Visiting the next day of the window continues the loop by one step. */
  lemma BackfillNext(respond: Upstream, cal: Calendar, symbol: string, range: string,
                     rows: seq<Price>, first: Day, k: nat, t: Trace, day: Day)
    requires t == Backfill(respond, cal, symbol, range, rows, first, k)
    requires day == first + k
    ensures VisitDay(respond, cal, symbol, range, t, day)
            == Backfill(respond, cal, symbol, range, rows, first, k + 1)
  {
    BackfillUnfold(respond, cal, symbol, range, rows, first, k + 1);
  }

  /** One visit keeps "the store is the old rows plus every answer so far". */
  lemma VisitDaySavesResponse(respond: Upstream, cal: Calendar, symbol: string, range: string,
                              rows: seq<Price>, t: Trace, day: Day)
    requires SavesEveryResponse(respond, rows, t)
    ensures SavesEveryResponse(respond, rows, VisitDay(respond, cal, symbol, range, t, day))
  {
    var u := VisitDay(respond, cal, symbol, range, t, day);
    if u.calls != t.calls {
      assert u.calls[..|u.calls| - 1] == t.calls;
    }
  }

  /** Saving every response carries over from `k - 1` visits to `k`. */
  lemma SavesInduction(respond: Upstream, cal: Calendar, symbol: string, range: string,
                       rows: seq<Price>, first: Day, k: nat)
    requires k > 0
    requires SavesEveryResponse(respond, rows, Backfill(respond, cal, symbol, range, rows, first, k - 1))
    ensures SavesEveryResponse(respond, rows, Backfill(respond, cal, symbol, range, rows, first, k))
  {
    VisitDaySavesResponse(respond, cal, symbol, range, rows,
                          Backfill(respond, cal, symbol, range, rows, first, k - 1), first + k - 1);
    BackfillUnfold(respond, cal, symbol, range, rows, first, k);
  }

  /** Every response is saved: the store ends as the old rows followed by all
      the upstream's answers, in call order. */
  lemma {:induction false} BackfillSavesEveryResponse(respond: Upstream, cal: Calendar, symbol: string,
                                                      range: string, rows: seq<Price>, first: Day, k: nat)
    ensures SavesEveryResponse(respond, rows, Backfill(respond, cal, symbol, range, rows, first, k))
    decreases k
  {
    if k > 0 {
      BackfillSavesEveryResponse(respond, cal, symbol, range, rows, first, k - 1);
      SavesInduction(respond, cal, symbol, range, rows, first, k);
    }
  }

  /** One visit keeps "everything gathered is in the store". */
  lemma VisitDayReturnsOnlyStored(respond: Upstream, cal: Calendar, symbol: string, range: string,
                                  t: Trace, day: Day)
    requires ReturnsOnlyStored(t)
    ensures ReturnsOnlyStored(VisitDay(respond, cal, symbol, range, t, day))
  {
    BySymbolAndDateMembers(t.rows, symbol, cal.iso(day));
  }

  /** Everything returned is in the store afterwards. */
  lemma {:induction false} BackfillReturnsOnlyStored(respond: Upstream, cal: Calendar, symbol: string,
                                                     range: string, rows: seq<Price>, first: Day, k: nat)
    ensures ReturnsOnlyStored(Backfill(respond, cal, symbol, range, rows, first, k))
    decreases k
  {
    if k > 0 {
      BackfillReturnsOnlyStored(respond, cal, symbol, range, rows, first, k - 1);
      VisitDayReturnsOnlyStored(respond, cal, symbol, range,
                                Backfill(respond, cal, symbol, range, rows, first, k - 1), first + k - 1);
      BackfillUnfold(respond, cal, symbol, range, rows, first, k);
    }
  }

  /** The days the first `k` visits fetch, in visiting order. */
  function CalledDays(respond: Upstream, cal: Calendar, symbol: string, range: string,
                      rows: seq<Price>, first: Day, k: nat): seq<Day>
    decreases k
  {
    if k == 0 then []
    else
      var d := first + k - 1;
      CalledDays(respond, cal, symbol, range, rows, first, k - 1)
      + (if Cached(Backfill(respond, cal, symbol, range, rows, first, k - 1).rows, symbol, cal.iso(d))
         then [] else [d])
  }

  /** Fetching one more day appends its call. */
  lemma CallsForSnoc(symbol: string, range: string, cal: Calendar, days: seq<Day>, d: Day)
    ensures CallsFor(symbol, range, cal, days + [d])
            == CallsFor(symbol, range, cal, days) + [Call(symbol, range, Some(cal.compact(d)))]
  {
    assert (days + [d])[..|days|] == days;
  }

  /** A day the loop finds unstored was unstored before the loop. */
  lemma UncachedInTrace(respond: Upstream, rows: seq<Price>, t: Trace, symbol: string, date: string)
    requires SavesEveryResponse(respond, rows, t)
    ensures !Cached(t.rows, symbol, date) ==> !Cached(rows, symbol, date)
  {
    BySymbolAndDateAppend(rows, Responses(respond, t.calls), symbol, date);
  }

  /** A plan for a window is a plan for the window one day longer. */
  lemma PlanWiden(days: seq<Day>, rows: seq<Price>, symbol: string, cal: Calendar, first: Day, k: nat)
    requires FetchPlan(days, rows, symbol, cal, first, k)
    ensures FetchPlan(days, rows, symbol, cal, first, k + 1)
  {
  }

  /** The window's next day, when the store lacks it, extends a plan. */
  lemma PlanSnoc(days: seq<Day>, rows: seq<Price>, symbol: string, cal: Calendar, first: Day, k: nat)
    requires FetchPlan(days, rows, symbol, cal, first, k)
    requires !Cached(rows, symbol, cal.iso(first + k))
    ensures FetchPlan(days + [first + k], rows, symbol, cal, first, k + 1)
  {
    var e := days + [first + k];
    forall i, j | 0 <= i < j < |e| ensures e[i] < e[j] {
      if j < |days| {
        assert e[i] == days[i] && e[j] == days[j];
      } else {
        assert e[i] == days[i];
      }
    }
  }

  /** The days fetched after `k` visits: those after `k - 1`, and the `k`-th
      day when the store the loop has built lacks it. */
  lemma CalledDaysUnfold(respond: Upstream, cal: Calendar, symbol: string, range: string,
                         rows: seq<Price>, first: Day, k: nat)
    requires k > 0
    ensures var t := Backfill(respond, cal, symbol, range, rows, first, k - 1);
            var before := CalledDays(respond, cal, symbol, range, rows, first, k - 1);
            CalledDays(respond, cal, symbol, range, rows, first, k)
            == if Cached(t.rows, symbol, cal.iso(first + k - 1)) then before else before + [first + k - 1]
  {
  }

  /** The `k`-th visit calls for exactly the day it adds to the fetched days. */
  lemma CalledDaysCallsStep(respond: Upstream, cal: Calendar, symbol: string, range: string,
                            rows: seq<Price>, first: Day, k: nat)
    requires k > 0
    requires Backfill(respond, cal, symbol, range, rows, first, k - 1).calls
             == CallsFor(symbol, range, cal, CalledDays(respond, cal, symbol, range, rows, first, k - 1))
    ensures Backfill(respond, cal, symbol, range, rows, first, k).calls
            == CallsFor(symbol, range, cal, CalledDays(respond, cal, symbol, range, rows, first, k))
  {
    var d := first + k - 1;
    var t := Backfill(respond, cal, symbol, range, rows, first, k - 1);
    var before := CalledDays(respond, cal, symbol, range, rows, first, k - 1);
    BackfillUnfold(respond, cal, symbol, range, rows, first, k);
    CalledDaysUnfold(respond, cal, symbol, range, rows, first, k);
    CallsForSnoc(symbol, range, cal, before, d);
  }

  /** A plan stays a plan when the window grows by a day, with that day
      added exactly when it is unstored. */
  lemma PlanStep(before: seq<Day>, after: seq<Day>, rows: seq<Price>, symbol: string, cal: Calendar,
                 first: Day, k: nat, fetched: bool)
    requires k > 0
    requires FetchPlan(before, rows, symbol, cal, first, k - 1)
    requires !fetched ==> after == before
    requires fetched ==> after == before + [first + k - 1] && !Cached(rows, symbol, cal.iso(first + k - 1))
    ensures FetchPlan(after, rows, symbol, cal, first, k)
  {
    if fetched {
      PlanSnoc(before, rows, symbol, cal, first, k - 1);
    } else {
      PlanWiden(before, rows, symbol, cal, first, k - 1);
    }
  }

  /** A day the `k`-th visit finds unstored was unstored before the loop. */
  lemma FetchedDayWasMissing(respond: Upstream, cal: Calendar, symbol: string, range: string,
                             rows: seq<Price>, first: Day, k: nat)
    requires k > 0
    ensures !Cached(Backfill(respond, cal, symbol, range, rows, first, k - 1).rows, symbol, cal.iso(first + k - 1))
            ==> !Cached(rows, symbol, cal.iso(first + k - 1))
  {
    BackfillSavesEveryResponse(respond, cal, symbol, range, rows, first, k - 1);
    UncachedInTrace(respond, rows, Backfill(respond, cal, symbol, range, rows, first, k - 1),
                    symbol, cal.iso(first + k - 1));
  }

  /** The `k`-th visit keeps the fetched days a fetch plan. */
  lemma CalledDaysPlanStep(respond: Upstream, cal: Calendar, symbol: string, range: string,
                           rows: seq<Price>, first: Day, k: nat, before: seq<Day>, after: seq<Day>)
    requires k > 0
    requires before == CalledDays(respond, cal, symbol, range, rows, first, k - 1)
    requires after == CalledDays(respond, cal, symbol, range, rows, first, k)
    requires FetchPlan(before, rows, symbol, cal, first, k - 1)
    ensures FetchPlan(after, rows, symbol, cal, first, k)
  {
    var d := first + k - 1;
    var stored := Cached(Backfill(respond, cal, symbol, range, rows, first, k - 1).rows, symbol, cal.iso(d));
    CalledDaysUnfold(respond, cal, symbol, range, rows, first, k);
    FetchedDayWasMissing(respond, cal, symbol, range, rows, first, k);
    PlanStep(before, after, rows, symbol, cal, first, k, !stored);
  }

  /** The loop's calls are those of the days it fetched, and these form a
      fetch plan. */
  lemma {:induction false} CalledDaysArePlanned(respond: Upstream, cal: Calendar, symbol: string,
                                                range: string, rows: seq<Price>, first: Day, k: nat)
    ensures Backfill(respond, cal, symbol, range, rows, first, k).calls
            == CallsFor(symbol, range, cal, CalledDays(respond, cal, symbol, range, rows, first, k))
    ensures FetchPlan(CalledDays(respond, cal, symbol, range, rows, first, k), rows, symbol, cal, first, k)
    decreases k
  {
    if k > 0 {
      CalledDaysArePlanned(respond, cal, symbol, range, rows, first, k - 1);
      CalledDaysCallsStep(respond, cal, symbol, range, rows, first, k);
      CalledDaysPlanStep(respond, cal, symbol, range, rows, first, k,
                         CalledDays(respond, cal, symbol, range, rows, first, k - 1),
                         CalledDays(respond, cal, symbol, range, rows, first, k));
    }
  }

  /** Whatever the upstream answers, the loop calls upstream only for days of
      the window that the starting store lacks, oldest first, at most once
      each, always with the original symbol and range and the day's compact
      date. */
  lemma BackfillCallsForMissingDays(respond: Upstream, cal: Calendar, symbol: string,
                                    range: string, rows: seq<Price>, first: Day, k: nat)
    ensures exists days :: FetchPlan(days, rows, symbol, cal, first, k)
                           && Backfill(respond, cal, symbol, range, rows, first, k).calls
                              == CallsFor(symbol, range, cal, days)
  {
    CalledDaysArePlanned(respond, cal, symbol, range, rows, first, k);
    var days := CalledDays(respond, cal, symbol, range, rows, first, k);
    assert FetchPlan(days, rows, symbol, cal, first, k);
  }

  /** A visit calls upstream exactly when the day is not in the current store. */
  lemma VisitDayCallCount(respond: Upstream, cal: Calendar, symbol: string, range: string,
                          t: Trace, day: Day)
    ensures |VisitDay(respond, cal, symbol, range, t, day).calls|
            == |t.calls| + (if Cached(t.rows, symbol, cal.iso(day)) then 0 else 1)
  {
  }

  /** Extending the window by one day adds one missing day exactly when the
      store lacks it. */
  lemma MissingCount(rows: seq<Price>, symbol: string, cal: Calendar, first: Day, k: nat)
    requires k > 0
    ensures |MissingDays(rows, symbol, cal, first, k)|
            == |MissingDays(rows, symbol, cal, first, k - 1)|
               + (if Cached(rows, symbol, cal.iso(first + k - 1)) then 0 else 1)
  {
  }

  /** A day stored before the loop is still stored during it. */
  lemma CachedInTrace(respond: Upstream, rows: seq<Price>, t: Trace, symbol: string, date: string)
    requires SavesEveryResponse(respond, rows, t)
    requires Cached(rows, symbol, date)
    ensures Cached(t.rows, symbol, date)
  {
    CachedStaysCached(rows, Responses(respond, t.calls), symbol, date);
  }

  /** One more visit adds a call only for a day missing from the starting
      store: a day cached before the loop stays cached. */
  lemma AtMostMissingStep(respond: Upstream, cal: Calendar, symbol: string, range: string,
                          rows: seq<Price>, t: Trace, first: Day, k: nat)
    requires k > 0
    requires SavesEveryResponse(respond, rows, t)
    requires |t.calls| <= |MissingDays(rows, symbol, cal, first, k - 1)|
    ensures |VisitDay(respond, cal, symbol, range, t, first + k - 1).calls|
            <= |MissingDays(rows, symbol, cal, first, k)|
  {
    var d := first + k - 1;
    MissingCount(rows, symbol, cal, first, k);
    VisitDayCallCount(respond, cal, symbol, range, t, d);
    if Cached(rows, symbol, cal.iso(d)) {
      CachedInTrace(respond, rows, t, symbol, cal.iso(d));
    }
  }

  /** The bound carries over from `k - 1` visits to `k`. */
  lemma AtMostMissingInduction(respond: Upstream, cal: Calendar, symbol: string, range: string,
                               rows: seq<Price>, first: Day, k: nat)
    requires k > 0
    requires |Backfill(respond, cal, symbol, range, rows, first, k - 1).calls|
             <= |MissingDays(rows, symbol, cal, first, k - 1)|
    ensures |Backfill(respond, cal, symbol, range, rows, first, k).calls|
            <= |MissingDays(rows, symbol, cal, first, k)|
  {
    BackfillSavesEveryResponse(respond, cal, symbol, range, rows, first, k - 1);
    AtMostMissingStep(respond, cal, symbol, range, rows,
                      Backfill(respond, cal, symbol, range, rows, first, k - 1), first, k);
  }

  /** Calls are never made for more days than the store was missing at the
      start. */
  lemma {:induction false} BackfillCallsAtMostMissing(respond: Upstream, cal: Calendar, symbol: string,
                                                      range: string, rows: seq<Price>, first: Day, k: nat)
    ensures |Backfill(respond, cal, symbol, range, rows, first, k).calls|
            <= |MissingDays(rows, symbol, cal, first, k)|
    decreases k
  {
    if k > 0 {
      BackfillCallsAtMostMissing(respond, cal, symbol, range, rows, first, k - 1);
      AtMostMissingInduction(respond, cal, symbol, range, rows, first, k);
    }
  }

  /** With every day stored, the `k`-th visit only appends that day's stored rows. */
  lemma AllCachedInduction(respond: Upstream, cal: Calendar, symbol: string, range: string,
                           rows: seq<Price>, first: Day, k: nat)
    requires k > 0
    requires MissingDays(rows, symbol, cal, first, k) == []
    requires Backfill(respond, cal, symbol, range, rows, first, k - 1)
             == Trace(Served(respond, cal, symbol, range, rows, Window(first, k - 1)), rows, [])
    ensures Backfill(respond, cal, symbol, range, rows, first, k)
            == Trace(Served(respond, cal, symbol, range, rows, Window(first, k)), rows, [])
  {
    MissingCount(rows, symbol, cal, first, k);
    ServedStep(respond, cal, symbol, range, rows, first, k);
    BackfillUnfold(respond, cal, symbol, range, rows, first, k);
  }

  /** When every day of the window is already stored, the loop makes no call,
      leaves the store alone and returns the stored rows day by day. */
  lemma {:induction false} BackfillAllCached(respond: Upstream, cal: Calendar, symbol: string,
                                             range: string, rows: seq<Price>, first: Day, k: nat)
    requires MissingDays(rows, symbol, cal, first, k) == []
    ensures Backfill(respond, cal, symbol, range, rows, first, k)
            == Trace(Served(respond, cal, symbol, range, rows, Window(first, k)), rows, [])
    decreases k
  {
    if k > 0 {
      MissingCount(rows, symbol, cal, first, k);
      BackfillAllCached(respond, cal, symbol, range, rows, first, k - 1);
      AllCachedInduction(respond, cal, symbol, range, rows, first, k);
    }
  }

  /** The rows answered for days other than `e` never match `e`'s date. */
  lemma {:induction false} OtherDaysNotAnswered(respond: Upstream, cal: Calendar, symbol: string,
                                                range: string, days: seq<Day>, e: Day)
    requires forall i :: 0 <= i < |days| ==>
               DatedAnswer(respond, cal, symbol, range, days[i]) && cal.iso(days[i]) != cal.iso(e)
    ensures BySymbolAndDate(Responses(respond, CallsFor(symbol, range, cal, days)), symbol, cal.iso(e)) == []
    decreases |days|
  {
    if days != [] {
      var init := days[..|days| - 1];
      var last := days[|days| - 1];
      var cs := CallsFor(symbol, range, cal, days);
      assert cs[..|cs| - 1] == CallsFor(symbol, range, cal, init);
      OtherDaysNotAnswered(respond, cal, symbol, range, init, e);
      var got := respond(symbol, range, Some(cal.compact(last)));
      BySymbolAndDateAppend(Responses(respond, CallsFor(symbol, range, cal, init)), got, symbol, cal.iso(e));
      NothingOnDate(got, symbol, cal.iso(e));
    }
  }

  /** The reference view of the backfill: one call per day missing from the
      starting store, oldest first; each day's stored or fetched records in
      day order; every fetched record saved. */
  function ExpectedBackfill(respond: Upstream, cal: Calendar, symbol: string, range: string,
                            rows: seq<Price>, first: Day, k: nat): Trace
  {
    var calls := CallsFor(symbol, range, cal, MissingDays(rows, symbol, cal, first, k));
    Trace(Served(respond, cal, symbol, range, rows, Window(first, k)),
          rows + Responses(respond, calls), calls)
  }

  /** Extending the window by one day adds that day to the missing days
      exactly when the store lacks it. */
  lemma MissingStep(rows: seq<Price>, symbol: string, cal: Calendar, first: Day, k: nat)
    requires k > 0
    ensures Cached(rows, symbol, cal.iso(first + k - 1)) ==>
              MissingDays(rows, symbol, cal, first, k) == MissingDays(rows, symbol, cal, first, k - 1)
    ensures !Cached(rows, symbol, cal.iso(first + k - 1)) ==>
              MissingDays(rows, symbol, cal, first, k)
              == MissingDays(rows, symbol, cal, first, k - 1) + [first + k - 1]
  {
  }

  /** Extending the window by one day extends the served records by that
      day's share. */
  lemma ServedStep(respond: Upstream, cal: Calendar, symbol: string, range: string,
                   rows: seq<Price>, first: Day, k: nat)
    requires k > 0
    ensures Served(respond, cal, symbol, range, rows, Window(first, k))
            == Served(respond, cal, symbol, range, rows, Window(first, k - 1))
               + PerDay(respond, cal, symbol, range, rows, first + k - 1)
  {
    assert Window(first, k)[..k - 1] == Window(first, k - 1);
  }

  /** Missing days earlier in the window do not make the next day look stored:
      what was fetched for them carries their own dates. */
  lemma LookupUnaffected(respond: Upstream, cal: Calendar, symbol: string, range: string,
                         rows: seq<Price>, first: Day, k: nat)
    requires k > 0
    requires AnswersPerDay(respond, cal, symbol, range, first, k)
    requires DistinctIsoDates(cal, first, k)
    ensures BySymbolAndDate(ExpectedBackfill(respond, cal, symbol, range, rows, first, k - 1).rows,
                            symbol, cal.iso(first + k - 1))
            == BySymbolAndDate(rows, symbol, cal.iso(first + k - 1))
  {
    var d := first + k - 1;
    var missing := MissingDays(rows, symbol, cal, first, k - 1);
    var calls := CallsFor(symbol, range, cal, missing);
    MissingDaysMembers(rows, symbol, cal, first, k - 1);
    forall i | 0 <= i < |missing|
      ensures DatedAnswer(respond, cal, symbol, range, missing[i]) && cal.iso(missing[i]) != cal.iso(d)
    {
      assert missing[i] in missing;
    }
    OtherDaysNotAnswered(respond, cal, symbol, range, missing, d);
    BySymbolAndDateAppend(rows, Responses(respond, calls), symbol, cal.iso(d));
  }

  /** A visit to a day missing from the starting store extends the reference
      view by one call and its answer. */
  lemma ExactStepMissing(respond: Upstream, cal: Calendar, symbol: string, range: string,
                         rows: seq<Price>, first: Day, k: nat)
    requires k > 0 && !Cached(rows, symbol, cal.iso(first + k - 1))
    requires AnswersPerDay(respond, cal, symbol, range, first, k)
    requires DistinctIsoDates(cal, first, k)
    ensures VisitDay(respond, cal, symbol, range,
                     ExpectedBackfill(respond, cal, symbol, range, rows, first, k - 1), first + k - 1)
            == ExpectedBackfill(respond, cal, symbol, range, rows, first, k)
  {
    var d := first + k - 1;
    var missing := MissingDays(rows, symbol, cal, first, k - 1);
    var calls := CallsFor(symbol, range, cal, missing);
    var e := ExpectedBackfill(respond, cal, symbol, range, rows, first, k - 1);
    var c := Call(symbol, range, Some(cal.compact(d)));
    var got := respond(symbol, range, Some(cal.compact(d)));
    var before := Responses(respond, calls);
    var served := Served(respond, cal, symbol, range, rows, Window(first, k - 1));
    assert e == Trace(served, rows + before, calls);
    assert BySymbolAndDate(e.rows, symbol, cal.iso(d)) == [] by {
      LookupUnaffected(respond, cal, symbol, range, rows, first, k);
    }
    assert CallsFor(symbol, range, cal, MissingDays(rows, symbol, cal, first, k)) == calls + [c] by {
      MissingStep(rows, symbol, cal, first, k);
      assert (missing + [d])[..|missing|] == missing;
    }
    assert Served(respond, cal, symbol, range, rows, Window(first, k)) == served + got by {
      ServedStep(respond, cal, symbol, range, rows, first, k);
    }
    assert Responses(respond, calls + [c]) == before + got by {
      assert (calls + [c])[..|calls|] == calls;
    }
    AppendAssociative(rows, before, got);
  }

  /** A visit to a day the starting store holds extends the reference view by
      that day's stored rows. */
  lemma ExactStepCached(respond: Upstream, cal: Calendar, symbol: string, range: string,
                        rows: seq<Price>, first: Day, k: nat)
    requires k > 0 && Cached(rows, symbol, cal.iso(first + k - 1))
    requires AnswersPerDay(respond, cal, symbol, range, first, k)
    requires DistinctIsoDates(cal, first, k)
    ensures VisitDay(respond, cal, symbol, range,
                     ExpectedBackfill(respond, cal, symbol, range, rows, first, k - 1), first + k - 1)
            == ExpectedBackfill(respond, cal, symbol, range, rows, first, k)
  {
    var d := first + k - 1;
    var e := ExpectedBackfill(respond, cal, symbol, range, rows, first, k - 1);
    MissingStep(rows, symbol, cal, first, k);
    ServedStep(respond, cal, symbol, range, rows, first, k);
    LookupUnaffected(respond, cal, symbol, range, rows, first, k);
    var stored := BySymbolAndDate(rows, symbol, cal.iso(d));
    assert MissingDays(rows, symbol, cal, first, k) == MissingDays(rows, symbol, cal, first, k - 1);
    var u := VisitDay(respond, cal, symbol, range, e, d);
    assert u == Trace(e.result + stored, e.rows, e.calls);
    assert u.result == Served(respond, cal, symbol, range, rows, Window(first, k));
  }

  /** The next visit extends the reference view by one day. */
  lemma ExactStep(respond: Upstream, cal: Calendar, symbol: string, range: string,
                  rows: seq<Price>, first: Day, k: nat)
    requires k > 0
    requires AnswersPerDay(respond, cal, symbol, range, first, k)
    requires DistinctIsoDates(cal, first, k)
    ensures VisitDay(respond, cal, symbol, range,
                     ExpectedBackfill(respond, cal, symbol, range, rows, first, k - 1), first + k - 1)
            == ExpectedBackfill(respond, cal, symbol, range, rows, first, k)
  {
    if Cached(rows, symbol, cal.iso(first + k - 1)) {
      ExactStepCached(respond, cal, symbol, range, rows, first, k);
    } else {
      ExactStepMissing(respond, cal, symbol, range, rows, first, k);
    }
  }

  /** What holds of a window holds of its first `k - 1` days. */
  lemma WindowAssumptionsShrink(respond: Upstream, cal: Calendar, symbol: string, range: string,
                                first: Day, k: nat)
    requires k > 0
    requires AnswersPerDay(respond, cal, symbol, range, first, k)
    requires DistinctIsoDates(cal, first, k)
    ensures AnswersPerDay(respond, cal, symbol, range, first, k - 1)
    ensures DistinctIsoDates(cal, first, k - 1)
  {
  }

  /** Before the first visit the loop and its reference view agree. */
  lemma ExactBase(respond: Upstream, cal: Calendar, symbol: string, range: string,
                  rows: seq<Price>, first: Day)
    ensures Backfill(respond, cal, symbol, range, rows, first, 0)
            == ExpectedBackfill(respond, cal, symbol, range, rows, first, 0)
  {
    assert Window(first, 0) == [];
    assert MissingDays(rows, symbol, cal, first, 0) == [];
  }

  /** After `k` visits the loop matches its reference view. */
  predicate ExactAfter(respond: Upstream, cal: Calendar, symbol: string, range: string,
                       rows: seq<Price>, first: Day, k: nat)
  {
    Backfill(respond, cal, symbol, range, rows, first, k)
    == ExpectedBackfill(respond, cal, symbol, range, rows, first, k)
  }

  /** If the loop matches its reference view after `k - 1` visits, it still
      does after `k`. */
  lemma ExactInduction(respond: Upstream, cal: Calendar, symbol: string, range: string,
                       rows: seq<Price>, first: Day, k: nat)
    requires k > 0
    requires AnswersPerDay(respond, cal, symbol, range, first, k)
    requires DistinctIsoDates(cal, first, k)
    requires ExactAfter(respond, cal, symbol, range, rows, first, k - 1)
    ensures ExactAfter(respond, cal, symbol, range, rows, first, k)
  {
    ExactStep(respond, cal, symbol, range, rows, first, k);
    BackfillUnfold(respond, cal, symbol, range, rows, first, k);
  }

  /** The induction behind `BackfillExact`. */
  lemma {:induction false} ExactUpTo(respond: Upstream, cal: Calendar, symbol: string,
                                     range: string, rows: seq<Price>, first: Day, k: nat)
    requires AnswersPerDay(respond, cal, symbol, range, first, k)
    requires DistinctIsoDates(cal, first, k)
    ensures ExactAfter(respond, cal, symbol, range, rows, first, k)
    decreases k
  {
    if k == 0 {
      ExactBase(respond, cal, symbol, range, rows, first);
    } else {
      WindowAssumptionsShrink(respond, cal, symbol, range, first, k);
      ExactUpTo(respond, cal, symbol, range, rows, first, k - 1);
      ExactInduction(respond, cal, symbol, range, rows, first, k);
    }
  }

  /** When the upstream answers each day with that day's records and the
      store dates of the window are distinct, the loop is its reference view:
      it calls upstream for exactly the days missing at the start, oldest
      first, and returns each day's stored or fetched records in day order. */
  lemma BackfillExact(respond: Upstream, cal: Calendar, symbol: string,
                      range: string, rows: seq<Price>, first: Day, k: nat)
    requires AnswersPerDay(respond, cal, symbol, range, first, k)
    requires DistinctIsoDates(cal, first, k)
    ensures Backfill(respond, cal, symbol, range, rows, first, k)
            == ExpectedBackfill(respond, cal, symbol, range, rows, first, k)
  {
    ExactUpTo(respond, cal, symbol, range, rows, first, k);
  }

  // ---------------------------------------------------------------------------
  // Whole-request properties

  /** The cold-symbol check is the same as "no stored row has this symbol". */
  lemma ColdMeansUnknownSymbol(rows: seq<Price>, symbol: string)
    ensures Cold(rows, symbol) <==> forall p :: p in rows ==> !SameSymbol(p.symbol, symbol)
  {
    var r := BySymbol(rows, symbol);
    BySymbolMembers(rows, symbol);
    if r != [] {
      assert r[0] in r;
    }
  }

  /** Requests whose symbols differ only in case see the same store: both
      are cold or neither is, and every lookup finds the same rows. */
  lemma ColdIgnoresCase(rows: seq<Price>, s1: string, s2: string, date: string)
    requires SameSymbol(s1, s2)
    ensures Cold(rows, s1) <==> Cold(rows, s2)
    ensures BySymbolAndDate(rows, s1, date) == BySymbolAndDate(rows, s2, date)
  {
    CaseInsensitiveFinders(rows, s1, s2, date);
  }

  /** Cold symbol: exactly one upstream call with the caller's arguments, its
      answer saved and returned; the range is never parsed. */
  lemma ColdPath(respond: Upstream, cal: Calendar, rows: seq<Price>, symbol: string,
                 range: string, date: Option<string>, today: Day)
    requires forall p :: p in rows ==> !SameSymbol(p.symbol, symbol)
    ensures var got := respond(symbol, range, date);
            Reconcile(respond, cal, rows, symbol, range, date, today)
            == Outcome(Ok(got), rows + got, [Call(symbol, range, date)])
  {
    ColdMeansUnknownSymbol(rows, symbol);
  }

  /** An exception leaves the store untouched and calls nothing upstream; a
      ParseException comes only from a single-date request. */
  lemma ExceptionsChangeNothing(respond: Upstream, cal: Calendar, rows: seq<Price>, symbol: string,
                                range: string, date: Option<string>, today: Day)
    ensures var o := Reconcile(respond, cal, rows, symbol, range, date, today);
            o.result.Err? ==>
              o.rows == rows && o.calls == [] &&
              (o.result.error == ParseException ==> date.Some? && !IsCompactDate(date.value))
  {
  }

  /** A request on a known symbol whose range parses is its dispatch on the
      day count. */
  lemma WarmIsDispatch(respond: Upstream, cal: Calendar, rows: seq<Price>, symbol: string,
                       range: string, date: Option<string>, today: Day, amtDays: int)
    requires !Cold(rows, symbol) && IntFromString(range).Ok?
    requires amtDays == TotalNumberOfDays(AlphabeticChars(range), IntFromString(range).value, cal.dayOfYear(today))
    ensures Reconcile(respond, cal, rows, symbol, range, date, today)
            == Dispatch(respond, cal, rows, symbol, range, date, today, amtDays)
  {
  }

  /** Every branch of the dispatch saves exactly what it fetched, in call order. */
  lemma DispatchStoreGrows(respond: Upstream, cal: Calendar, rows: seq<Price>, symbol: string,
                           range: string, date: Option<string>, today: Day, amtDays: int)
    ensures var o := Dispatch(respond, cal, rows, symbol, range, date, today, amtDays);
            o.rows == rows + Responses(respond, o.calls)
  {
    if amtDays == 0 {
      ResponsesOfOne(respond, Call(symbol, range, date));
    } else if amtDays == -1 {
      if date.Some? {
        ResponsesOfOne(respond, Call(symbol, range, date));
      }
    } else if amtDays > 0 {
      BackfillSavesEveryResponse(respond, cal, symbol, range, rows, today - amtDays, amtDays);
    }
  }

  /** The store ends as the old rows followed by every upstream answer, in
      call order: every fetched record is saved, nothing else is written. */
  lemma StoreGrowsByResponses(respond: Upstream, cal: Calendar, rows: seq<Price>, symbol: string,
                              range: string, date: Option<string>, today: Day)
    ensures var o := Reconcile(respond, cal, rows, symbol, range, date, today);
            o.rows == rows + Responses(respond, o.calls)
  {
    if Cold(rows, symbol) {
      ResponsesOfOne(respond, Call(symbol, range, date));
    } else if IntFromString(range).Ok? {
      var amtDays := TotalNumberOfDays(AlphabeticChars(range), IntFromString(range).value, cal.dayOfYear(today));
      WarmIsDispatch(respond, cal, rows, symbol, range, date, today, amtDays);
      DispatchStoreGrows(respond, cal, rows, symbol, range, date, today, amtDays);
    }
  }

  /** Every branch of the dispatch returns only stored records. */
  lemma DispatchResultIsStored(respond: Upstream, cal: Calendar, rows: seq<Price>, symbol: string,
                               range: string, date: Option<string>, today: Day, amtDays: int)
    ensures var o := Dispatch(respond, cal, rows, symbol, range, date, today, amtDays);
            o.result.Ok? ==> forall p :: p in o.result.value ==> p in o.rows
  {
    if amtDays == -1 && date.Some? && DateFormat(date.value).Ok? {
      BySymbolAndDateMembers(rows, symbol, DateFormat(date.value).value);
    } else if amtDays > 0 {
      BackfillReturnsOnlyStored(respond, cal, symbol, range, rows, today - amtDays, amtDays);
    }
  }

  /** Every record returned is in the store afterwards. */
  lemma ResultIsStored(respond: Upstream, cal: Calendar, rows: seq<Price>, symbol: string,
                       range: string, date: Option<string>, today: Day)
    ensures var o := Reconcile(respond, cal, rows, symbol, range, date, today);
            o.result.Ok? ==> forall p :: p in o.result.value ==> p in o.rows
  {
    if !Cold(rows, symbol) && IntFromString(range).Ok? {
      var amtDays := TotalNumberOfDays(AlphabeticChars(range), IntFromString(range).value, cal.dayOfYear(today));
      WarmIsDispatch(respond, cal, rows, symbol, range, date, today, amtDays);
      DispatchResultIsStored(respond, cal, rows, symbol, range, date, today, amtDays);
    }
  }

  /** "max" on a known symbol always refetches the whole history in one call. */
  lemma MaxAlwaysRefetches(respond: Upstream, cal: Calendar, rows: seq<Price>, symbol: string,
                           date: Option<string>, today: Day)
    ensures var got := respond(symbol, "max", date);
            Reconcile(respond, cal, rows, symbol, "max", date, today)
            == Outcome(Ok(got), rows + got, [Call(symbol, "max", date)])
  {
    UnitOnlyDescriptor("max");
    assert TotalNumberOfDays("max", 0, cal.dayOfYear(today)) == 0;
  }

  /** A unit outside the table on a known symbol falls through to a full
      refetch with the caller's arguments. */
  lemma UnknownUnitRefetches(respond: Upstream, cal: Calendar, rows: seq<Price>, symbol: string,
                             range: string, date: Option<string>, today: Day)
    requires !Cold(rows, symbol)
    requires IntFromString(range).Ok? && !KnownUnit(AlphabeticChars(range))
    ensures var got := respond(symbol, range, date);
            Reconcile(respond, cal, rows, symbol, range, date, today)
            == Outcome(Ok(got), rows + got, [Call(symbol, range, date)])
  {
  }

  /** A known symbol whose range gives a day count of zero ("0d", "0w",
      "0y", "max", or a unit outside the table) is refetched whole in one
      call with the caller's arguments. */
  lemma ZeroCountRefetches(respond: Upstream, cal: Calendar, rows: seq<Price>, symbol: string,
                           range: string, date: Option<string>, today: Day)
    requires !Cold(rows, symbol) && IntFromString(range).Ok?
    requires TotalNumberOfDays(AlphabeticChars(range), IntFromString(range).value, cal.dayOfYear(today)) == 0
    ensures var got := respond(symbol, range, date);
            Reconcile(respond, cal, rows, symbol, range, date, today)
            == Outcome(Ok(got), rows + got, [Call(symbol, range, date)])
  {
    WarmIsDispatch(respond, cal, rows, symbol, range, date, today, 0);
  }

  /** A known symbol whose range gives a positive day count `n`, whatever its
      unit, is the backfill over the `n` days before today. */
  lemma PositiveCountIsBackfill(respond: Upstream, cal: Calendar, rows: seq<Price>, symbol: string,
                                range: string, date: Option<string>, today: Day, n: int)
    requires !Cold(rows, symbol) && IntFromString(range).Ok?
    requires n == TotalNumberOfDays(AlphabeticChars(range), IntFromString(range).value, cal.dayOfYear(today))
    requires n > 0
    ensures Reconcile(respond, cal, rows, symbol, range, date, today)
            == Finished(Backfill(respond, cal, symbol, range, rows, today - n, n))
  {
    WarmIsDispatch(respond, cal, rows, symbol, range, date, today, n);
  }

  /** A known symbol whose range gives the day count -1 (`date`, `5date`, or a
      count that wraps there, such as `286331153m`) takes the single-date
      path with that range: nothing without a date, a ParseException for a
      malformed one, the stored rows of a stored date, and otherwise one fetch
      with the caller's range and raw date, saved and returned. */
  lemma SentinelCountIsSingleDate(respond: Upstream, cal: Calendar, rows: seq<Price>, symbol: string,
                                  range: string, date: Option<string>, today: Day)
    requires !Cold(rows, symbol) && IntFromString(range).Ok?
    requires TotalNumberOfDays(AlphabeticChars(range), IntFromString(range).value, cal.dayOfYear(today)) == -1
    ensures var o := Reconcile(respond, cal, rows, symbol, range, date, today);
            && (date.None? ==> o == Outcome(Ok([]), rows, []))
            && (date.Some? && !IsCompactDate(date.value) ==> o == Outcome(Err(ParseException), rows, []))
            && (date.Some? && IsCompactDate(date.value) ==>
                  var stored := BySymbolAndDate(rows, symbol, DateFormat(date.value).value);
                  var got := respond(symbol, range, date);
                  o == if stored != [] then Outcome(Ok(stored), rows, [])
                       else Outcome(Ok(got), rows + got, [Call(symbol, range, date)]))
  {
    WarmIsDispatch(respond, cal, rows, symbol, range, date, today, -1);
    if date.Some? && IsCompactDate(date.value) {
      var stored := BySymbolAndDate(rows, symbol, DateFormat(date.value).value);
      assert [] + stored == stored;
      if stored == [] {
        var got := respond(symbol, range, date);
        assert stored + got == got;
      }
    }
  }

  /** A known symbol whose range gives a day count below -1 (a wrapped
      multiplication) returns nothing, writes nothing and calls nothing. */
  lemma NegativeCountIsEmpty(respond: Upstream, cal: Calendar, rows: seq<Price>, symbol: string,
                             range: string, date: Option<string>, today: Day)
    requires !Cold(rows, symbol) && IntFromString(range).Ok?
    requires TotalNumberOfDays(AlphabeticChars(range), IntFromString(range).value, cal.dayOfYear(today)) < -1
    ensures Reconcile(respond, cal, rows, symbol, range, date, today) == Outcome(Ok([]), rows, [])
  {
    var amtDays := TotalNumberOfDays(AlphabeticChars(range), IntFromString(range).value, cal.dayOfYear(today));
    WarmIsDispatch(respond, cal, rows, symbol, range, date, today, amtDays);
  }

  /** The single-date sentinel without a date returns nothing and touches nothing. */
  lemma DateSentinelWithoutDate(respond: Upstream, cal: Calendar, rows: seq<Price>, symbol: string,
                                today: Day)
    requires !Cold(rows, symbol)
    ensures Reconcile(respond, cal, rows, symbol, "date", None, today) == Outcome(Ok([]), rows, [])
  {
    UnitOnlyDescriptor("date");
    assert TotalNumberOfDays("date", 0, cal.dayOfYear(today)) == -1;
  }

  /** On a known symbol, "date" with a date is the single-date lookup. */
  lemma DateRangeIsByDate(respond: Upstream, cal: Calendar, rows: seq<Price>, symbol: string,
                          date: string, today: Day)
    requires !Cold(rows, symbol)
    ensures Reconcile(respond, cal, rows, symbol, "date", Some(date), today)
            == ByDate(respond, rows, symbol, "date", date, [])
  {
    UnitOnlyDescriptor("date");
    assert TotalNumberOfDays("date", 0, cal.dayOfYear(today)) == -1;
  }

  /** The single-date path on a known symbol: a malformed date raises before
      any lookup; a stored date is served with no call; a missing date is
      fetched once with the caller's raw date and saved. */
  lemma SingleDate(respond: Upstream, cal: Calendar, rows: seq<Price>, symbol: string,
                   date: string, today: Day)
    requires !Cold(rows, symbol)
    ensures var o := Reconcile(respond, cal, rows, symbol, "date", Some(date), today);
            && (!IsCompactDate(date) ==> o == Outcome(Err(ParseException), rows, []))
            && (IsCompactDate(date) ==>
                  var stored := BySymbolAndDate(rows, symbol, DateFormat(date).value);
                  var got := respond(symbol, "date", Some(date));
                  o == if stored != [] then Outcome(Ok(stored), rows, [])
                       else Outcome(Ok(got), rows + got, [Call(symbol, "date", Some(date))]))
  {
    DateRangeIsByDate(respond, cal, rows, symbol, date, today);
    if IsCompactDate(date) {
      var stored := BySymbolAndDate(rows, symbol, DateFormat(date).value);
      assert [] + stored == stored;
      if stored == [] {
        var got := respond(symbol, "date", Some(date));
        assert stored + got == got;
      }
    }
  }

  /** A range that parses to magnitude `n` and unit "d", such as
      `DecimalString(n) + "d"`. */
  predicate DayRange(range: string, n: nat) {
    IntFromString(range) == Ok(n) && AlphabeticChars(range) == "d"
  }

  /** On a known symbol, an "<n>d" request is the backfill over the `n` days
      before today, the oldest of which is `first`. */
  lemma DayRangeIsBackfill(respond: Upstream, cal: Calendar, rows: seq<Price>, symbol: string,
                           range: string, n: nat, date: Option<string>, first: Day, today: Day)
    requires 1 <= n && DayRange(range, n) && !Cold(rows, symbol) && first == today - n
    ensures Reconcile(respond, cal, rows, symbol, range, date, today)
            == Finished(Backfill(respond, cal, symbol, range, rows, first, n))
  {
  }

  /** An "<n>d" request on a known symbol visits today-n up to today-1. When
      every such day is stored it makes no call, changes nothing and returns
      the stored rows day by day. */
  lemma DayRangeAllCached(respond: Upstream, cal: Calendar, rows: seq<Price>, symbol: string,
                          range: string, n: nat, date: Option<string>, first: Day, today: Day)
    requires 1 <= n && DayRange(range, n) && !Cold(rows, symbol) && first == today - n
    requires MissingDays(rows, symbol, cal, first, n) == []
    ensures Reconcile(respond, cal, rows, symbol, range, date, today)
            == Outcome(Ok(Served(respond, cal, symbol, range, rows, Window(first, n))), rows, [])
  {
    DayRangeIsBackfill(respond, cal, rows, symbol, range, n, date, first, today);
    BackfillAllCached(respond, cal, symbol, range, rows, first, n);
  }

  /** An "<n>d" request on a known symbol, with an upstream that answers each
      day with that day's records: one call per day missing from the store,
      oldest first, each with the original range and the day's compact date;
      the result is every day's stored or fetched records in day order. */
  lemma DayRangeFetchesMissingDays(respond: Upstream, cal: Calendar, rows: seq<Price>, symbol: string,
                                   range: string, n: nat, date: Option<string>, first: Day, today: Day)
    requires 1 <= n && DayRange(range, n) && !Cold(rows, symbol) && first == today - n
    requires AnswersPerDay(respond, cal, symbol, range, first, n)
    requires DistinctIsoDates(cal, first, n)
    ensures Reconcile(respond, cal, rows, symbol, range, date, today)
            == Finished(ExpectedBackfill(respond, cal, symbol, range, rows, first, n))
  {
    DayRangeIsBackfill(respond, cal, rows, symbol, range, n, date, first, today);
    BackfillExact(respond, cal, symbol, range, rows, first, n);
  }

  /** Whatever the store and the upstream hold, an "<n>d" request calls
      upstream only for days today-n up to today-1, with the original symbol
      and range, and never more often than the store was missing days at the
      start. */
  lemma DayRangeCallsBeforeToday(respond: Upstream, cal: Calendar, rows: seq<Price>, symbol: string,
                                 range: string, n: nat, date: Option<string>, first: Day, today: Day)
    requires 1 <= n && DayRange(range, n) && !Cold(rows, symbol) && first == today - n
    ensures var o := Reconcile(respond, cal, rows, symbol, range, date, today);
            |o.calls| <= |MissingDays(rows, symbol, cal, first, n)| &&
            exists days :: FetchPlan(days, rows, symbol, cal, first, n)
                           && o.calls == CallsFor(symbol, range, cal, days)
  {
    DayRangeIsBackfill(respond, cal, rows, symbol, range, n, date, first, today);
    BackfillCallsForMissingDays(respond, cal, symbol, range, rows, first, n);
    BackfillCallsAtMostMissing(respond, cal, symbol, range, rows, first, n);
  }

  /** Every numeral followed by "d" is such a range. */
  lemma DayRangeOfNumeral(n: nat)
    requires n <= MaxInt
    ensures DayRange(DecimalString(n) + "d", n)
  {
    RangeDescriptorRoundTrip(n, "d");
  }

  /** The month count wraps: "286331153m" lands on the single-date sentinel,
      so without a date it returns nothing and calls nothing. */
  lemma WrappedMonthCountTakesDatePath(respond: Upstream, cal: Calendar, rows: seq<Price>,
                                       symbol: string, today: Day)
    requires !Cold(rows, symbol)
    ensures Reconcile(respond, cal, rows, symbol, DecimalString(286331153) + "m", None, today)
            == Outcome(Ok([]), rows, [])
  {
    RangeDescriptorRoundTrip(286331153, "m");
    DayCountWraps(cal.dayOfYear(today));
  }
}
