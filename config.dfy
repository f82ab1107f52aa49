/**
 * The integration's constants and the configuration entry it stores: the
 * record written by the configuration wizard and read by the sensor platform.
 */
module Config {
  import opened Wrappers

  const DOMAIN: string := "coinmarketcap"

  /** Default refresh interval: ten minutes, in seconds. */
  const DEFAULT_SCAN_INTERVAL: int := 600

  /** A holdings dict: (symbol, amount) pairs in the dict's iteration order. */
  type Holdings = seq<(string, real)>

  /** `set(xs)` */
  function SetOf(xs: seq<string>): set<string> {
    set x | x in xs
  }

  /** No element twice. */
  predicate Distinct(xs: seq<string>) {
    forall i, j :: 0 <= i < j < |xs| ==> xs[i] != xs[j]
  }

  /**
   * `list(s)` for a Python set: every element exactly once, in an order the
   * model leaves open (as Python's set iteration order is unspecified).
   */
  method ListOfSet(s: set<string>) returns (xs: seq<string>)
    ensures Distinct(xs)
    ensures (set x | x in xs) == s
    ensures |xs| == |s|
  {
    xs := [];
    var rest := s;
    while rest != {}
      invariant rest <= s
      invariant Distinct(xs)
      invariant (set x | x in xs) == s - rest
      invariant |xs| + |rest| == |s|
      decreases rest
    {
      var x :| x in rest;
      assert (set y | y in xs + [x]) == (set y | y in xs) + {x};
      xs := xs + [x];
      rest := rest - {x};
    }
  }

  /** A dict has each key once. */
  predicate DistinctKeys(h: Holdings) {
    forall i, j :: 0 <= i < j < |h| ==> h[i].0 != h[j].0
  }

  /**
   * `entry.data`. `apiKey` is None when the wizard never stored one;
   * `coinAmounts` is None when the entry has no holdings key at all (the
   * wizard never writes one; any other writer may).
   */
  datatype EntryData = EntryData(
    apiKey: Option<string>,
    cryptocurrencies: seq<string>,
    currency: string,
    scanInterval: int,
    coinAmounts: Option<Holdings>)

  /** A stored configuration entry; the host replaces its `data` when the options change. */
  class ConfigEntry {
    const entryId: string
    var data: EntryData

    constructor (entryId: string, data: EntryData)
      ensures this.entryId == entryId && this.data == data
    {
      this.entryId := entryId;
      this.data := data;
    }
  }
}
