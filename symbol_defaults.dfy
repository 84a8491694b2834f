/**
 * Symbol-aware stop and take-profit defaults
 * (backend/app/services/symbol_defaults.py): a table keyed by upper-case
 * symbol, searched for an exact key, then for a key the symbol starts with
 * (broker suffixes such as "BTCUSD.m"), with the forex defaults otherwise.
 */
module SymbolDefaults {
  import opened Wrappers
  import opened Text

  datatype Defaults = Defaults(
    stopLossPips: real,
    takeProfitPips: real,
    maxStopPips: real,
    pipValuePerLot: real)

  const Xauusd := Defaults(50.0, 30.0, 50.0, 10.0)
  const Btcusd := Defaults(500.0, 300.0, 1000.0, 1.0)
  const Forex := Defaults(50.0, 30.0, 50.0, 10.0)

  /** SYMBOL_DEFAULTS, in its insertion (and so iteration) order. */
  const Table: seq<(string, Defaults)> := [("XAUUSD", Xauusd), ("BTCUSD", Btcusd)]

  /** `key in table` followed by `table[key]`. */
  function FindExact(table: seq<(string, Defaults)>, key: string): (r: Option<Defaults>)
    ensures r.None? <==> forall j :: 0 <= j < |table| ==> table[j].0 != key
    ensures r.Some? ==> exists j :: 0 <= j < |table| && table[j] == (key, r.value)
  {
    if table == [] then None
    else if table[0].0 == key then Some(table[0].1)
    else FindExact(table[1..], key)
  }

  /** The first entry whose key is a prefix of `s`, in table order. */
  function FindPrefix(table: seq<(string, Defaults)>, s: string): (r: Option<Defaults>)
    ensures r.None? <==> forall j :: 0 <= j < |table| ==> !StartsWith(s, table[j].0)
    ensures r.Some? ==> exists j :: 0 <= j < |table| && StartsWith(s, table[j].0) && table[j].1 == r.value
                                 && forall k :: 0 <= k < j ==> !StartsWith(s, table[k].0)
  {
    if table == [] then None
    else if StartsWith(s, table[0].0) then Some(table[0].1)
    else
      var r := FindPrefix(table[1..], s);
      assert forall j :: 1 <= j < |table| ==> table[j] == table[1..][j - 1];
      r
  }

  /** `get_symbol_defaults(symbol)` */
  function GetSymbolDefaults(symbol: string): (d: Defaults)
    ensures d == Xauusd || d == Btcusd || d == Forex
  {
    var upper := Upper(symbol);
    var exact := FindExact(Table, upper);
    if exact.Some? then
      exact.value
    else
      var prefix := FindPrefix(Table, upper);
      if prefix.Some? then prefix.value else Forex
  }

  /** The lookup does not depend on the case of the symbol. */
  lemma DefaultsIgnoreCase(symbol: string)
    ensures GetSymbolDefaults(Upper(symbol)) == GetSymbolDefaults(symbol)
  {
    UpperIdempotent(symbol);
  }

  /** An exact key is also a prefix, so the exact look-up never decides differently from the prefix search. */
  lemma ExactMatchIsFirstPrefix(symbol: string)
    ensures GetSymbolDefaults(symbol) ==
      var p := FindPrefix(Table, Upper(symbol)); if p.Some? then p.value else Forex
  {
    var u := Upper(symbol);
    if u == "XAUUSD" {
      assert StartsWith(u, Table[0].0);
    } else if u == "BTCUSD" {
      assert !StartsWith(u, Table[0].0) by { assert u[..6] != "XAUUSD"; }
      assert StartsWith(u, Table[1].0);
    }
  }

  /** A symbol that starts with a key gets that key's defaults, and one that starts with none gets the forex ones. */
  lemma PrefixDecides(symbol: string)
    ensures StartsWith(Upper(symbol), "XAUUSD") ==> GetSymbolDefaults(symbol) == Xauusd
    ensures StartsWith(Upper(symbol), "BTCUSD") ==> GetSymbolDefaults(symbol) == Btcusd
    ensures !StartsWith(Upper(symbol), "XAUUSD") && !StartsWith(Upper(symbol), "BTCUSD") ==>
      GetSymbolDefaults(symbol) == Forex
  {
    ExactMatchIsFirstPrefix(symbol);
    var u := Upper(symbol);
    if StartsWith(u, "BTCUSD") {
      assert u[..6] == "BTCUSD";
      assert !StartsWith(u, "XAUUSD") by { assert u[..6][0] != "XAUUSD"[0]; }
    }
  }

  /** "BTCUSD.m" carries a broker suffix and still gets the bitcoin defaults. */
  lemma SuffixedBitcoin()
    ensures GetSymbolDefaults("btcusd.m") == Btcusd
  {
    PrefixDecides("btcusd.m");
    assert Upper("btcusd.m") == "BTCUSD.M";
    assert StartsWith("BTCUSD.M", "BTCUSD");
  }
}
