/** The historical price record and the two queries the store answers. */
module Prices {
  import opened Chars

  /** One day of prices for one symbol. The store's generated row id is not
      part of the value: two saved copies of a record are two equal rows. */
  datatype Price = Price(
    symbol: string,
    date: string,   // "YYYY-MM-DD"
    close: real,
    high: real,
    low: real,
    open: real,
    volume: int)

  /** Upper-casing, character by character. */
  function UpperCase(s: string): (u: string)
    ensures |u| == |s|
  {
    if s == [] then [] else [UpperChar(s[0])] + UpperCase(s[1..])
  }

  /** Symbols are compared ignoring (ASCII) case. */
  predicate SameSymbol(a: string, b: string) {
    UpperCase(a) == UpperCase(b)
  }

  /** findBySymbolIgnoreCase: every stored row of the symbol, in store order. */
  function BySymbol(rows: seq<Price>, symbol: string): seq<Price>
    decreases |rows|
  {
    if rows == [] then []
    else
      var last := rows[|rows| - 1];
      BySymbol(rows[..|rows| - 1], symbol) + (if SameSymbol(last.symbol, symbol) then [last] else [])
  }

  /** The symbol query returns the stored rows of the symbol and nothing else. */
  lemma {:induction false} BySymbolMembers(rows: seq<Price>, symbol: string)
    ensures forall p :: p in BySymbol(rows, symbol) <==> p in rows && SameSymbol(p.symbol, symbol)
    decreases |rows|
  {
    if rows != [] {
      BySymbolMembers(rows[..|rows| - 1], symbol);
      assert rows == rows[..|rows| - 1] + [rows[|rows| - 1]];
    }
  }

  /** The row is of `symbol` (ignoring case) and of `date`. */
  predicate IsAt(p: Price, symbol: string, date: string) {
    SameSymbol(p.symbol, symbol) && p.date == date
  }

  /** findBySymbolIgnoreCaseAndDate: every stored row of the symbol on that date. */
  function BySymbolAndDate(rows: seq<Price>, symbol: string, date: string): seq<Price>
    decreases |rows|
  {
    if rows == [] then []
    else
      var last := rows[|rows| - 1];
      BySymbolAndDate(rows[..|rows| - 1], symbol, date) + (if IsAt(last, symbol, date) then [last] else [])
  }

  /** The date query returns the stored rows of the symbol on that date and nothing else. */
  lemma {:induction false} BySymbolAndDateMembers(rows: seq<Price>, symbol: string, date: string)
    ensures forall p :: p in BySymbolAndDate(rows, symbol, date) <==> p in rows && IsAt(p, symbol, date)
    decreases |rows|
  {
    if rows != [] {
      BySymbolAndDateMembers(rows[..|rows| - 1], symbol, date);
      assert rows == rows[..|rows| - 1] + [rows[|rows| - 1]];
    }
  }

  /** A (symbol, date) pair is cached when the store holds a row for it. */
  predicate Cached(rows: seq<Price>, symbol: string, date: string) {
    BySymbolAndDate(rows, symbol, date) != []
  }

  /** Appending rows never hides what was already found: the answer for the
      longer store is the old answer followed by the answer for the new rows. */
  lemma {:induction false} BySymbolAndDateAppend(a: seq<Price>, b: seq<Price>, symbol: string, date: string)
    ensures BySymbolAndDate(a + b, symbol, date)
         == BySymbolAndDate(a, symbol, date) + BySymbolAndDate(b, symbol, date)
    decreases |b|
  {
    if b == [] {
      assert a + b == a;
    } else {
      assert (a + b)[..|a + b| - 1] == a + b[..|b| - 1];
      BySymbolAndDateAppend(a, b[..|b| - 1], symbol, date);
    }
  }

  /** Rows of other dates never answer a date lookup. */
  lemma {:induction false} NothingOnDate(rows: seq<Price>, symbol: string, date: string)
    requires forall p :: p in rows ==> p.date != date
    ensures BySymbolAndDate(rows, symbol, date) == []
    decreases |rows|
  {
    if rows != [] {
      assert forall p :: p in rows[..|rows| - 1] ==> p in rows;
      NothingOnDate(rows[..|rows| - 1], symbol, date);
    }
  }

  /** Once cached, always cached, since saving only appends. */
  lemma CachedStaysCached(a: seq<Price>, b: seq<Price>, symbol: string, date: string)
    requires Cached(a, symbol, date)
    ensures Cached(a + b, symbol, date)
  {
    BySymbolAndDateAppend(a, b, symbol, date);
  }

  /** Symbols that differ only in case find the same rows. */
  lemma {:induction false} CaseInsensitiveFinders(rows: seq<Price>, s1: string, s2: string, date: string)
    requires SameSymbol(s1, s2)
    ensures BySymbol(rows, s1) == BySymbol(rows, s2)
    ensures BySymbolAndDate(rows, s1, date) == BySymbolAndDate(rows, s2, date)
    decreases |rows|
  {
    if rows != [] {
      CaseInsensitiveFinders(rows[..|rows| - 1], s1, s2, date);
    }
  }
}
