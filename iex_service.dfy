/** The service itself: the price store, the upstream client and the calendar
    it reads, and the four reconciler methods, each proved to do exactly what
    the reference model in `Reconciliation` says. */
module Service {
  import opened Seqs
  import opened Wrappers
  import opened Prices
  import opened RangeParsing
  import opened Dates
  import opened Collaborators
  import opened Reconciliation

  /** The number of backfill iterations for a day count: the loop runs
      `amtDays` down to 1, so not at all when the count is below 1. */
  function Iterations(amtDays: int): nat {
    if amtDays >= 1 then amtDays else 0
  }

  class IexService {
    const cloud: CloudClient
    const rpsy: PriceStore
    const cal: Calendar

    constructor (cloud: CloudClient, rpsy: PriceStore, cal: Calendar)
      ensures this.cloud == cloud && this.rpsy == rpsy && this.cal == cal
    {
      this.cloud := cloud;
      this.rpsy := rpsy;
      this.cal := cal;
    }

    /** updateHistoricalDB: one upstream call; its answer is saved and returned. */
    method UpdateHistoricalDB(symbol: string, range: string, date: Option<string>)
      returns (prices: seq<Price>)
      modifies cloud, rpsy
      ensures prices == cloud.respond(symbol, range, date)
      ensures rpsy.rows == old(rpsy.rows) + prices
      ensures cloud.log == old(cloud.log) + [Call(symbol, range, date)]
    {
      prices := cloud.GetAllHistoricalPrices(symbol, range, date);
      rpsy.SaveAll(prices);
    }

    /** One iteration of findHistoricalPrices for `dayCheck`, the day after
        the `k` already visited from `first`: the day's stored rows if the
        store has any (looked up again, as the loop does), otherwise the
        upstream's answer for the day's compact date, saved. `rows0` and
        `log0` are the store and the client's log before the loop. */
    method VisitDayCheck(symbol: string, range: string, dayCheck: Day, ghost rows0: seq<Price>,
                         ghost first: Day, ghost k: nat, ghost log0: seq<Call>)
      returns (added: seq<Price>)
      requires dayCheck == first + k
      requires rpsy.rows == Backfill(cloud.respond, cal, symbol, range, rows0, first, k).rows
      requires cloud.log == log0 + Backfill(cloud.respond, cal, symbol, range, rows0, first, k).calls
      modifies cloud, rpsy
      ensures Backfill(cloud.respond, cal, symbol, range, rows0, first, k).result + added
              == Backfill(cloud.respond, cal, symbol, range, rows0, first, k + 1).result
      ensures rpsy.rows == Backfill(cloud.respond, cal, symbol, range, rows0, first, k + 1).rows
      ensures cloud.log == log0 + Backfill(cloud.respond, cal, symbol, range, rows0, first, k + 1).calls
    {
      ghost var t := Backfill(cloud.respond, cal, symbol, range, rows0, first, k);
      BackfillNext(cloud.respond, cal, symbol, range, rows0, first, k, t, dayCheck);
      var dateFind := cal.compact(dayCheck);
      var dateString := cal.iso(dayCheck);
      var found := rpsy.FindBySymbolIgnoreCaseAndDate(symbol, dateString);
      if found == [] {
        added := UpdateHistoricalDB(symbol, range, Some(dateFind));
        AppendAssociative(log0, t.calls, [Call(symbol, range, Some(dateFind))]);
      } else {
        added := rpsy.FindBySymbolIgnoreCaseAndDate(symbol, dateString);
      }
    }

    /** findHistoricalPrices: visit the days `amtDays` down to 1 before today,
        oldest first, appending each day's stored rows or, when it has none,
        the upstream's answer for it. */
    method FindHistoricalPrices(symbol: string, range: string, amtDays: Int32,
                                acc: seq<Price>, today: Day)
      returns (prices: seq<Price>)
      modifies cloud, rpsy
      ensures var t := Backfill(cloud.respond, cal, symbol, range, old(rpsy.rows),
                                today - amtDays, Iterations(amtDays));
              prices == acc + t.result && rpsy.rows == t.rows && cloud.log == old(cloud.log) + t.calls
    {
      ghost var rows0 := rpsy.rows;
      ghost var log0 := cloud.log;
      ghost var first := today - amtDays;
      ghost var done: nat := 0;
      prices := acc;
      var i := amtDays;
      while i >= 1
        invariant amtDays >= 1 ==> 0 <= i <= amtDays
        invariant amtDays < 1 ==> i == amtDays
        invariant done == amtDays - i
        invariant prices == acc + Backfill(cloud.respond, cal, symbol, range, rows0, first, done).result
        invariant rpsy.rows == Backfill(cloud.respond, cal, symbol, range, rows0, first, done).rows
        invariant cloud.log == log0 + Backfill(cloud.respond, cal, symbol, range, rows0, first, done).calls
        decreases i
      {
        var dayCheck := NewDate(today, i);
        var added := VisitDayCheck(symbol, range, dayCheck, rows0, first, done, log0);
        AppendAssociative(acc, Backfill(cloud.respond, cal, symbol, range, rows0, first, done).result, added);
        prices := prices + added;
        i := i - 1;
        done := done + 1;
      }
      assert done == Iterations(amtDays);
    }

    /** getPricesByDate: normalise the date (a ParseException leaves
        everything untouched), append its stored rows, and fetch it with the
        caller's raw date only when nothing has been gathered. */
    method GetPricesByDate(symbol: string, range: string, date: string, acc: seq<Price>)
      returns (prices: Result<seq<Price>>)
      modifies cloud, rpsy
      ensures var o := ByDate(cloud.respond, old(rpsy.rows), symbol, range, date, acc);
              prices == o.result && rpsy.rows == o.rows && cloud.log == old(cloud.log) + o.calls
    {
      var rpsyDate := DateFormat(date);
      if rpsyDate.Err? {
        return Err(rpsyDate.error);
      }
      var found := rpsy.FindBySymbolIgnoreCaseAndDate(symbol, rpsyDate.value);
      var gathered := acc + found;
      if gathered == [] {
        var fetched := UpdateHistoricalDB(symbol, range, Some(date));
        gathered := gathered + fetched;
      }
      prices := Ok(gathered);
    }

    /** The dispatch of getAllHistoricalPrices on the day count of a parsed range. */
    method DispatchOnDays(symbol: string, range: string, date: Option<string>, today: Day,
                          amtDays: Int32)
      returns (prices: Result<seq<Price>>)
      modifies cloud, rpsy
      ensures var o := Dispatch(cloud.respond, cal, old(rpsy.rows), symbol, range, date, today, amtDays);
              prices == o.result && rpsy.rows == o.rows && cloud.log == old(cloud.log) + o.calls
    {
      if amtDays == 0 {
        var fetched := UpdateHistoricalDB(symbol, range, date);
        prices := Ok(fetched);
      } else if amtDays == -1 {
        if date.None? {
          return Ok([]);
        }
        prices := GetPricesByDate(symbol, range, date.value, []);
      } else if amtDays > 0 {
        ghost var t := Backfill(cloud.respond, cal, symbol, range, rpsy.rows, today - amtDays, amtDays);
        var found := FindHistoricalPrices(symbol, range, amtDays, [], today);
        assert [] + t.result == t.result;
        prices := Ok(found);
      } else {
        prices := Ok([]);
      }
    }

    /** getAllHistoricalPrices: refetch a symbol the store does not know;
        otherwise parse the range and dispatch on its day count. */
    method GetAllHistoricalPrices(symbol: string, range: string, date: Option<string>, today: Day)
      returns (prices: Result<seq<Price>>)
      modifies cloud, rpsy
      ensures var o := Reconcile(cloud.respond, cal, old(rpsy.rows), symbol, range, date, today);
              prices == o.result && rpsy.rows == o.rows && cloud.log == old(cloud.log) + o.calls
    {
      var count := rpsy.Count();
      var cold := count == 0;
      if !cold {
        var bySymbol := rpsy.FindBySymbolIgnoreCase(symbol);
        cold := bySymbol == [];
      }
      if cold {
        var fetched := UpdateHistoricalDB(symbol, range, date);
        return Ok(fetched);
      }
      var rangeLength := GetIntFromString(range);
      if rangeLength.Err? {
        return Err(rangeLength.error);
      }
      var rangeType := GetAlphabeticChars(range);
      var amtDays := TotalNumberOfDays(rangeType, rangeLength.value, cal.dayOfYear(today));
      prices := DispatchOnDays(symbol, range, date, today, amtDays);
    }
  }
}
