/** The reconciler's two collaborators: the price repository and the upstream
    historical-prices client. */
module Collaborators {
  import opened Wrappers
  import opened Prices

  /** One request sent upstream: symbol, range descriptor and optional date. */
  datatype Call = Call(symbol: string, range: string, date: Option<string>)

  /** What the upstream answers to a request. */
  type Upstream = (string, string, Option<string>) -> seq<Price>

  /** The repository of saved prices. Saving appends rows: every saved record
      receives a fresh generated id, so saving a record twice stores it twice. */
  class PriceStore {
    var rows: seq<Price>

    constructor (rows: seq<Price>)
      ensures this.rows == rows
    {
      this.rows := rows;
    }

    method Count() returns (n: nat)
      ensures n == |rows|
    {
      n := |rows|;
    }

    method FindBySymbolIgnoreCase(symbol: string) returns (found: seq<Price>)
      ensures found == BySymbol(rows, symbol)
    {
      found := BySymbol(rows, symbol);
    }

    method FindBySymbolIgnoreCaseAndDate(symbol: string, date: string) returns (found: seq<Price>)
      ensures found == BySymbolAndDate(rows, symbol, date)
    {
      found := BySymbolAndDate(rows, symbol, date);
    }

    method SaveAll(prices: seq<Price>)
      modifies this
      ensures rows == old(rows) + prices
    {
      rows := rows + prices;
    }
  }

  /** The upstream client: its answers are given by `respond`, and `log`
      records every request made, in order. */
  class CloudClient {
    const respond: Upstream
    ghost var log: seq<Call>

    constructor (respond: Upstream)
      ensures this.respond == respond && log == []
    {
      this.respond := respond;
      log := [];
    }

    method GetAllHistoricalPrices(symbol: string, range: string, date: Option<string>)
      returns (prices: seq<Price>)
      modifies this
      ensures prices == respond(symbol, range, date)
      ensures log == old(log) + [Call(symbol, range, date)]
    {
      prices := respond(symbol, range, date);
      log := log + [Call(symbol, range, date)];
    }
  }
}
