/**
 * The console tracker's exchange rates (ConsoleApp/Services/CurrencyService.cs):
 * the currency list, a one-hour cache of fetched rates under one global
 * timestamp, and a fixed fallback table. The HTTP fetch and the clock are
 * inputs: `fetched` is the `rates` dictionary of the response, or `None`
 * when the request failed or carried no rates.
 */
module Currencies {
  import opened Wrappers

  datatype Currency = Currency(code: string, name: string, symbol: string)

  /** `GetAvailableCurrencies`. */
  function AvailableCurrencies(): (cs: seq<Currency>)
    ensures |cs| == 7
    ensures cs[0].code == "RUB" && cs[1].code == "USD" && cs[2].code == "EUR"
    ensures forall i, j :: 0 <= i < j < |cs| ==> cs[i].code != cs[j].code
  {
    [ Currency("RUB", "Российский рубль", "₽"),
      Currency("USD", "Доллар США", "$"),
      Currency("EUR", "Евро", "€"),
      Currency("GBP", "Фунт стерлингов", "£"),
      Currency("JPY", "Японская йена", "¥"),
      Currency("CNY", "Китайский юань", "¥"),
      Currency("KRW", "Южнокорейская вона", "₩") ]
  }

  /** The cache and table key of a currency pair. */
  function PairKey(from: string, to: string): string
  {
    from + "_" + to
  }

  /** The fallback rates, in roubles per unit. */
  const FallbackTable: map<string, real> := map[
    "USD_RUB" := 90.0, "EUR_RUB" := 98.0, "GBP_RUB" := 115.0,
    "JPY_RUB" := 0.6, "CNY_RUB" := 12.5, "KRW_RUB" := 0.07]

  /** `GetFallback`: the table rate, else the reciprocal of the reverse rate, else 1. */
  function Fallback(from: string, to: string): (r: real)
    ensures PairKey(from, to) in FallbackTable ==> r == FallbackTable[PairKey(from, to)]
    ensures PairKey(from, to) !in FallbackTable && PairKey(to, from) in FallbackTable
      ==> r == 1.0 / FallbackTable[PairKey(to, from)]
    ensures PairKey(from, to) !in FallbackTable && PairKey(to, from) !in FallbackTable ==> r == 1.0
    ensures r > 0.0
  {
    var key := PairKey(from, to);
    if key in FallbackTable then FallbackTable[key]
    else
      var reverse := PairKey(to, from);
      if reverse in FallbackTable then 1.0 / FallbackTable[reverse] else 1.0
  }

  /** A table key names its two currencies: the three letters before and after the underscore. */
  lemma TableKeyParts(from: string, to: string)
    requires PairKey(from, to) in FallbackTable
    ensures to == "RUB"
    ensures from != "RUB"
  {
    var k := PairKey(from, to);
    TableKeyShape(k);
    assert k[|from|] == '_';
    assert |from| == 3;
    assert from == k[..3] && to == k[4..];
    assert from[0] == k[0];
  }

  lemma TableKeyShape(k: string)
    requires k in FallbackTable
    ensures |k| == 7 && k[3] == '_' && k[4..] == "RUB" && k[0] != 'R'
    ensures forall i :: 0 <= i < 7 && i != 3 ==> k[i] != '_'
  {
    assert k in {"USD_RUB", "EUR_RUB", "GBP_RUB", "JPY_RUB", "CNY_RUB", "KRW_RUB"};
  }

  /** Converting there and back by the fallback table is the identity: the two rates multiply to 1. */
  lemma FallbackReciprocal(a: string, b: string)
    ensures Fallback(a, b) * Fallback(b, a) == 1.0
  {
    if PairKey(a, b) in FallbackTable {
      TableKeyParts(a, b);
      assert PairKey(b, a)[0] == 'R';
      if PairKey(b, a) in FallbackTable {
        TableKeyShape(PairKey(b, a));
      }
    } else if PairKey(b, a) in FallbackTable {
      TableKeyParts(b, a);
    }
  }

  /** The fallback from dollars to roubles and back: 90 and 1/90. */
  lemma FallbackDollar()
    ensures Fallback("USD", "RUB") == 90.0
    ensures Fallback("RUB", "USD") == 1.0 / 90.0
  {
    assert PairKey("USD", "RUB") == "USD_RUB";
    assert PairKey("RUB", "USD") == "RUB_USD";
  }

  /** One hour in ticks. */
  const TicksPerHour := 36_000_000_000

  /** The rate `GetRate` returns and the state it leaves. */
  datatype RateLookup = RateLookup(rate: real, cache: map<string, real>, lastUpdate: int)

  /** `GetRate`, as a function of the service state, the clock and the fetch. */
  function Lookup(cache: map<string, real>, lastUpdate: int, from: string, to: string, now: int,
                  fetched: Option<map<string, real>>): (l: RateLookup)
    ensures from == to ==> l == RateLookup(1.0, cache, lastUpdate)
    ensures from != to && PairKey(from, to) in cache && now - lastUpdate < TicksPerHour
      ==> l == RateLookup(cache[PairKey(from, to)], cache, lastUpdate)
    ensures l.cache == cache || l.cache == cache[PairKey(from, to) := l.rate]
    ensures l.lastUpdate == lastUpdate || l.lastUpdate == now
  {
    if from == to then RateLookup(1.0, cache, lastUpdate)
    else
      var key := PairKey(from, to);
      if key in cache && now - lastUpdate < TicksPerHour then RateLookup(cache[key], cache, lastUpdate)
      else if fetched.Some? && to in fetched.value then
        RateLookup(fetched.value[to], cache[key := fetched.value[to]], now)
      else RateLookup(Fallback(from, to), cache, lastUpdate)
  }

  /**
   * A rate fetched successfully is served from the cache, whatever the network
   * does, until an hour after the fetch.
   */
  lemma FetchedRateIsCached(cache: map<string, real>, lastUpdate: int, from: string, to: string, now: int,
                            rates: map<string, real>, later: int, fetched: Option<map<string, real>>)
    requires from != to
    requires !(PairKey(from, to) in cache && now - lastUpdate < TicksPerHour)
    requires to in rates
    requires now <= later < now + TicksPerHour
    ensures var first := Lookup(cache, lastUpdate, from, to, now, Some(rates));
      first.rate == rates[to]
      && Lookup(first.cache, first.lastUpdate, from, to, later, fetched) == first
  {
  }

  /** The cache holds one timestamp for all pairs: a fetch of one pair makes every cached pair fresh again. */
  lemma RefreshRevivesOtherPairs(cache: map<string, real>, lastUpdate: int, from: string, to: string, now: int,
                                 rates: map<string, real>, from2: string, to2: string, fetched: Option<map<string, real>>)
    requires from != to && from2 != to2
    requires !(PairKey(from, to) in cache && now - lastUpdate < TicksPerHour)
    requires to in rates
    requires PairKey(from2, to2) in cache && PairKey(from2, to2) != PairKey(from, to)
    ensures var first := Lookup(cache, lastUpdate, from, to, now, Some(rates));
      Lookup(first.cache, first.lastUpdate, from2, to2, now, fetched).rate == cache[PairKey(from2, to2)]
  {
  }

  /** Without a usable fetch and without a fresh cached rate, the fallback is returned and nothing is stored. */
  lemma FailedFetchFallsBack(cache: map<string, real>, lastUpdate: int, from: string, to: string, now: int,
                             fetched: Option<map<string, real>>)
    requires from != to
    requires !(PairKey(from, to) in cache && now - lastUpdate < TicksPerHour)
    requires fetched.None? || to !in fetched.value
    ensures Lookup(cache, lastUpdate, from, to, now, fetched) == RateLookup(Fallback(from, to), cache, lastUpdate)
  {
  }

  /** `CurrencyService`: the rate cache and the time of the last successful fetch (`DateTime.MinValue` = tick 0). */
  class CurrencyService {
    var cache: map<string, real>
    var lastUpdate: int

    constructor ()
      ensures cache == map[] && lastUpdate == 0
    {
      cache, lastUpdate := map[], 0;
    }

    /** `GetRate(from, to)`, with the clock reading `now` and the fetch's outcome `fetched`. */
    method GetRate(from: string, to: string, now: int, fetched: Option<map<string, real>>) returns (rate: real)
      modifies this
      ensures RateLookup(rate, cache, lastUpdate) == Lookup(old(cache), old(lastUpdate), from, to, now, fetched)
    {
      if from == to {
        return 1.0;
      }
      var key := PairKey(from, to);
      if key in cache && now - lastUpdate < TicksPerHour {
        return cache[key];
      }
      if fetched.Some? && to in fetched.value {
        rate := fetched.value[to];
        cache := cache[key := rate];
        lastUpdate := now;
        return rate;
      }
      rate := Fallback(from, to);
    }
  }
}
