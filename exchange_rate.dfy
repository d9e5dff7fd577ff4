/**
 * `exchangeRate.js`: the module-level rate cache and the conversion of an amount into
 * the reference currency (renminbi).
 */
module ExchangeRate {
  import opened Wrappers
  import opened Decimal

  /** Currency code to rate, in units of that currency per one unit of renminbi. */
  type RateTable = map<string, real>

  /**
   * `exchangeRate(currencyCode, amount)` with `amount` given in hundredths. `cache` is the
   * value of `ratesCache`; `None` stands for `undefined`, the value a storage change that
   * removes the stored rates leaves behind, on which the property lookup throws a TypeError.
   * A missing code or a falsy rate (0) gives `null`; otherwise `(amount / rate).toFixed(2)`.
   */
  function Convert(cache: Option<RateTable>, code: string, hundredths: nat): (r: Completion<Option<string>>)
    ensures r == Throw <==> cache.None?
    ensures r == Normal(None) <==> cache.Some? && (code !in cache.value || cache.value[code] == 0.0)
  {
    if cache.None? then Throw
    else if code !in cache.value || cache.value[code] == 0.0 then Normal(None)
    else Normal(Some(ToFixed2((hundredths as real / 100.0) / cache.value[code])))
  }

  /**
   * The figure `Convert` produces for a known, positive rate reads back as the hundredths
   * nearest to amount / rate (the larger on a tie); a negative rate gives a negative figure.
   */
  lemma ConvertedFigure(cache: Option<RateTable>, code: string, hundredths: nat)
    requires Convert(cache, code, hundredths).Normal? && Convert(cache, code, hundredths).value.Some?
    ensures code in cache.value && cache.value[code] != 0.0
    ensures var rate, s := cache.value[code], Convert(cache, code, hundredths).value.value;
            rate > 0.0 ==>
              IsPlainDecimal(s) && ParseHundredths(s).Some? &&
              hundredths as real / rate - 0.5 < ParseHundredths(s).value as real <= hundredths as real / rate + 0.5
    ensures var rate, s := cache.value[code], Convert(cache, code, hundredths).value.value;
            rate < 0.0 && hundredths > 0 ==> |s| > 0 && s[0] == '-'
  {
    var rate := cache.value[code];
    var quotient := (hundredths as real / 100.0) / rate;
    assert Convert(cache, code, hundredths).value.value == ToFixed2(quotient);
    ScaledQuotient(hundredths as real, rate);
    ToFixed2ReadsBack(quotient);
  }

  lemma ScaledQuotient(amount: real, rate: real)
    requires rate != 0.0 && amount >= 0.0
    ensures 100.0 * ((amount / 100.0) / rate) == amount / rate
    ensures rate > 0.0 ==> (amount / 100.0) / rate >= 0.0
    ensures rate < 0.0 && amount > 0.0 ==> (amount / 100.0) / rate < 0.0
  {
  }

  /** The value of `ratesCache`, which the storage callbacks replace wholesale. */
  class RateCache {
    var rates: Option<RateTable>

    /** `let ratesCache = DEFAULT_RATES`. */
    constructor(defaults: RateTable)
      ensures rates == Some(defaults)
    {
      rates := Some(defaults);
    }

    /**
     * The callback of `chrome.storage.local.get(['rates'])`: stored rates, when there are
     * any, replace the cache.
     */
    method OnStorageLoaded(stored: Option<RateTable>)
      modifies this
      ensures rates == if stored.Some? then stored else old(rates)
    {
      if stored.Some? {
        rates := stored;
      }
    }

    /**
     * The `chrome.storage.onChanged` listener. `changedKeys` are the keys of `changes`;
     * `newRates` is `changes.rates.newValue` (`None` when the key was removed). Only a change
     * to `rates` in the `local` area replaces the cache, and it replaces it whole.
     */
    method OnStorageChanged(area: string, changedKeys: set<string>, newRates: Option<RateTable>)
      modifies this
      ensures rates == if area == "local" && "rates" in changedKeys then newRates else old(rates)
    {
      if area == "local" && "rates" in changedKeys {
        rates := newRates;
      }
    }
  }

  /** Seventy US dollars at seven per renminbi are ten renminbi; ten are 1.43 after rounding. */
  lemma ConvertExamples()
    ensures Convert(Some(map["USD" := 7.0]), "USD", 7000) == Normal(Some("10.00"))
    ensures Convert(Some(map["USD" := 7.0]), "USD", 1000) == Normal(Some("1.43"))
    ensures Convert(Some(map["USD" := 7.0]), "XXX", 1000) == Normal(None)
    ensures Convert(Some(map["USD" := 0.0]), "USD", 1000) == Normal(None)
  {
    assert RoundHundredths(70.0 / 7.0) == 1000;
    assert NatToDecimal(10) == "10" by { assert NatToDecimal(1) == "1"; }
    assert FixedPoint(1000) == "10.00";
    assert RoundHundredths(10.0 / 7.0) == 143;
    assert FixedPoint(143) == "1.43" by { assert NatToDecimal(1) == "1"; }
  }
}
