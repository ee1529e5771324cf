/**
  Currency rate lookup (`PricingEngine.get_conversion_rate`).

  The stored rates are a map from upper-cased (from, to) code pairs to the
  multiply factor; the database's case-insensitive `iexact` lookup becomes a
  lookup of the upper-cased pair. A missing or empty code stands for
  Python's falsy `None` / `""`.
*/
module Rates {
  import opened Wrappers
  import opened Text
  import opened Models

  type RateTable = map<(string, string), real>

  function PairKey(fromCurrency: string, toCurrency: string): (string, string) {
    (Upper(fromCurrency), Upper(toCurrency))
  }

  /** No two stored rows name the same ordered pair once case is ignored. */
  predicate UniqueIgnoringCase(rows: seq<CurrencyRate>) {
    forall i, j :: 0 <= i < j < |rows| ==>
      PairKey(rows[i].fromCurrency, rows[i].toCurrency) != PairKey(rows[j].fromCurrency, rows[j].toCurrency)
  }

  /** The lookup table for a list of stored rows. */
  function TableOf(rows: seq<CurrencyRate>): RateTable {
    if rows == [] then map[]
    else TableOf(rows[..|rows| - 1])[PairKey(rows[|rows| - 1].fromCurrency, rows[|rows| - 1].toCurrency) := rows[|rows| - 1].rate]
  }

  /**
    The conversion factor from one currency to another: 1 when either code
    is missing or the two are equal ignoring case; otherwise the direct
    stored rate; otherwise the reciprocal of a non-zero inverse rate;
    otherwise none.
  */
  function GetConversionRate(table: RateTable, fromCurrency: string, toCurrency: string): Option<real> {
    if fromCurrency == "" || toCurrency == "" || Upper(fromCurrency) == Upper(toCurrency) then
      Some(1.0)
    else if PairKey(fromCurrency, toCurrency) in table then
      Some(table[PairKey(fromCurrency, toCurrency)])
    else if PairKey(toCurrency, fromCurrency) in table && table[PairKey(toCurrency, fromCurrency)] != 0.0 then
      Some(1.0 / table[PairKey(toCurrency, fromCurrency)])
    else
      None
  }

  /** Without a usable code pair, or for a currency against itself, the table is not consulted. */
  lemma TrivialPairIsOne(table: RateTable, fromCurrency: string, toCurrency: string)
    requires fromCurrency == "" || toCurrency == "" || Upper(fromCurrency) == Upper(toCurrency)
    ensures GetConversionRate(table, fromCurrency, toCurrency) == Some(1.0)
    ensures forall other: RateTable ::
      GetConversionRate(other, fromCurrency, toCurrency) == GetConversionRate(table, fromCurrency, toCurrency)
  {
  }

  /** A direct row wins over an inverse row, whatever either holds (even 0). */
  lemma DirectRateWins(table: RateTable, fromCurrency: string, toCurrency: string)
    requires fromCurrency != "" && toCurrency != "" && Upper(fromCurrency) != Upper(toCurrency)
    requires PairKey(fromCurrency, toCurrency) in table
    ensures GetConversionRate(table, fromCurrency, toCurrency) == Some(table[PairKey(fromCurrency, toCurrency)])
  {
  }

  /**
    Without a direct row the lookup is none exactly when the inverse row is
    missing or zero (no division fault), and otherwise the reciprocal.
  */
  lemma InverseFallback(table: RateTable, fromCurrency: string, toCurrency: string)
    requires fromCurrency != "" && toCurrency != "" && Upper(fromCurrency) != Upper(toCurrency)
    requires PairKey(fromCurrency, toCurrency) !in table
    ensures GetConversionRate(table, fromCurrency, toCurrency).None? <==>
      (PairKey(toCurrency, fromCurrency) !in table || table[PairKey(toCurrency, fromCurrency)] == 0.0)
    ensures GetConversionRate(table, fromCurrency, toCurrency).Some? ==>
      GetConversionRate(table, fromCurrency, toCurrency).value * table[PairKey(toCurrency, fromCurrency)] == 1.0
  {
  }

  /**
    With a single non-zero stored rate between two currencies, converting
    there and back is the identity: the two lookups multiply to 1.
  */
  lemma OneWayRateIsReversible(table: RateTable, a: string, b: string)
    requires a != "" && b != "" && Upper(a) != Upper(b)
    requires PairKey(a, b) in table && table[PairKey(a, b)] != 0.0
    requires PairKey(b, a) !in table
    ensures GetConversionRate(table, a, b).Some? && GetConversionRate(table, b, a).Some?
    ensures GetConversionRate(table, a, b).value * GetConversionRate(table, b, a).value == 1.0
  {
    assert Upper(b) != Upper(a);
  }

  /**
    The table built from stored rows holds exactly the rows' pairs, each
    with that row's rate, when the rows are unique ignoring case.
  */
  lemma {:induction false} TableOfRows(rows: seq<CurrencyRate>)
    requires UniqueIgnoringCase(rows)
    ensures forall i :: 0 <= i < |rows| ==>
      PairKey(rows[i].fromCurrency, rows[i].toCurrency) in TableOf(rows) &&
      TableOf(rows)[PairKey(rows[i].fromCurrency, rows[i].toCurrency)] == rows[i].rate
    ensures forall key :: key in TableOf(rows) ==>
      exists i :: 0 <= i < |rows| && PairKey(rows[i].fromCurrency, rows[i].toCurrency) == key
  {
    if rows != [] {
      var init := rows[..|rows| - 1];
      assert UniqueIgnoringCase(init);
      TableOfRows(init);
      var last := |rows| - 1;
      forall key | key in TableOf(rows)
        ensures exists i :: 0 <= i < |rows| && PairKey(rows[i].fromCurrency, rows[i].toCurrency) == key
      {
        if key != PairKey(rows[last].fromCurrency, rows[last].toCurrency) {
          assert key in TableOf(init);
          var i :| 0 <= i < |init| && PairKey(init[i].fromCurrency, init[i].toCurrency) == key;
          assert rows[i] == init[i];
        }
      }
    }
  }

  /**
    Looking up a stored row's own pair, in any letter case, finds that row's
    rate (the `iexact` query returns the one matching row).
  */
  lemma StoredRateIsFound(rows: seq<CurrencyRate>, i: nat, fromCurrency: string, toCurrency: string)
    requires UniqueIgnoringCase(rows) && i < |rows|
    requires Upper(fromCurrency) == Upper(rows[i].fromCurrency) && Upper(toCurrency) == Upper(rows[i].toCurrency)
    requires fromCurrency != "" && toCurrency != "" && Upper(fromCurrency) != Upper(toCurrency)
    ensures GetConversionRate(TableOf(rows), fromCurrency, toCurrency) == Some(rows[i].rate)
  {
    TableOfRows(rows);
  }
}
