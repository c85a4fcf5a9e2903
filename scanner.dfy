/**
 * The momentum scanner: two metrics over a symbol's daily records (the volume
 * multiplier and the day-over-day price gain), the "volume shocker" decision
 * built on them, the filter that turns the index's constituent list into stock
 * symbols, and the scan over the universe that collects the matches.
 *
 * The data provider is a parameter: `provider(symbol)` is the sequence of daily
 * records the historical-data endpoint returned for that symbol (empty on any
 * fetch failure), and the constituent endpoint's reply is an
 * `Option<seq<Constituent>>` (None when the reply is empty or has no `data` key).
 */
module Scanner {
  import opened Wrappers
  import opened Builtins

  /** A match needs a volume at least 2.5 times the average. */
  const VolumeMultiplierThreshold: real := 2.5
  /** A match needs a price gain of at least 1 percent. */
  const MinPriceGainPct: real := 1.0
  /** The average volume is taken over the 20 days before the last one. */
  const AvgVolumeDays: nat := 20
  /** The limit a scanner in test mode gets when none is given. */
  const TestModeLimit: int := 10
  /** The message of the error raised when the last day's volume is not a number. */
  const ConversionErrorMessage: string := "could not convert volume to float"

  /**
   * One trading day. A field is None when its value does not convert to a
   * number (`float()` raises) and Some(0.0) when the key is missing.
   */
  datatype Record = Record(close: Option<real>, volume: Option<real>)

  /** The result of a computation that may raise an exception. */
  datatype Outcome<T> = Value(value: T) | Raised(message: string)

  /**
   * One entry of the index's constituent list. `symbol` is None when the value
   * under the key is not a string (so `upper()` raises) and Some("") when the key
   * is missing; `series` is None when the key is missing.
   */
  datatype Constituent = Constituent(symbol: Option<string>, series: Option<string>)

  /** A stock that met both thresholds. */
  datatype ScanResult = ScanResult(
    symbol: string,
    price: real,
    priceGainPct: real,
    volumeMultiplier: real,
    currentVolume: int)

  // ================================================================ constituent filter

  /** An entry is kept when it names a stock: no "NIFTY" in its upper-cased symbol and a listing series. */
  predicate IsStock(c: Constituent)
  {
    match c.symbol
    case None => false
    case Some(s) => !Contains(Upper(s), "NIFTY") && TruthyStr(c.series)
  }

  predicate SymbolsAreStrings(entries: seq<Constituent>)
  {
    forall i :: 0 <= i < |entries| ==> entries[i].symbol.Some?
  }

  /** The symbols of the kept entries, in the order of the list. */
  function StockSymbols(entries: seq<Constituent>): seq<string>
  {
    if entries == [] then []
    else
      var last := entries[|entries| - 1];
      StockSymbols(entries[..|entries| - 1]) + (if IsStock(last) then [last.symbol.value] else [])
  }

  /**
   * What the universe query returns: nothing when the reply has no data, nothing
   * when some entry's symbol is not a string (the exception handler returns the
   * empty list), and otherwise the symbols of the kept entries.
   */
  function IndexSymbols(response: Option<seq<Constituent>>): seq<string>
  {
    match response
    case None => []
    case Some(entries) => if SymbolsAreStrings(entries) then StockSymbols(entries) else []
  }

  /** The filter loop of the universe query, on the endpoint's reply. */
  method GetIndexSymbols(response: Option<seq<Constituent>>) returns (symbols: seq<string>)
    ensures symbols == IndexSymbols(response)
  {
    if response.None? {
      return [];
    }
    var entries := response.value;
    symbols := [];
    var i := 0;
    while i < |entries|
      invariant 0 <= i <= |entries|
      invariant SymbolsAreStrings(entries[..i])
      invariant symbols == StockSymbols(entries[..i])
    {
      var stock := entries[i];
      if stock.symbol.None? {
        // upper() raises on a non-string; the handler returns the empty list
        return [];
      }
      var symbol := stock.symbol.value;
      if !Contains(Upper(symbol), "NIFTY") && TruthyStr(stock.series) {
        symbols := symbols + [symbol];
      }
      assert entries[..i + 1][..i] == entries[..i];
      i := i + 1;
    }
    assert entries[..i] == entries;
  }

  /** The filter distributes over concatenation: it keeps the order of the list. */
  lemma {:induction false} StockSymbolsAppend(a: seq<Constituent>, b: seq<Constituent>)
    ensures StockSymbols(a + b) == StockSymbols(a) + StockSymbols(b)
    decreases |b|
  {
    if b == [] {
      assert a + b == a;
    } else {
      var init := b[..|b| - 1];
      StockSymbolsAppend(a, init);
      assert (a + b)[..|a + b| - 1] == a + init;
      assert (a + b)[|a + b| - 1] == b[|b| - 1];
    }
  }

  /** A symbol is returned exactly when some kept entry carries it. */
  lemma {:induction false} StockSymbolsMembership(entries: seq<Constituent>, s: string)
    ensures s in StockSymbols(entries) <==>
      exists i :: 0 <= i < |entries| && entries[i].symbol == Some(s) && IsStock(entries[i])
  {
    if entries != [] {
      var init := entries[..|entries| - 1];
      StockSymbolsMembership(init, s);
      if s in StockSymbols(init) {
        var i :| 0 <= i < |init| && init[i].symbol == Some(s) && IsStock(init[i]);
        assert entries[i] == init[i];
      }
      if exists i :: 0 <= i < |entries| && entries[i].symbol == Some(s) && IsStock(entries[i]) {
        var i :| 0 <= i < |entries| && entries[i].symbol == Some(s) && IsStock(entries[i]);
        if i < |init| {
          assert init[i] == entries[i];
        }
      }
    }
  }

  // ================================================================ volume multiplier

  /** The volumes that convert to numbers, in order; a volume that does not is skipped. */
  function ParsedVolumes(days: seq<Record>): seq<real>
  {
    if days == [] then []
    else
      ParsedVolumes(days[..|days| - 1]) +
      (match days[|days| - 1].volume case Some(v) => [v] case None => [])
  }

  predicate AllVolumesParse(days: seq<Record>)
  {
    forall i :: 0 <= i < |days| ==> days[i].volume.Some?
  }

  function Sum(xs: seq<real>): real
  {
    if xs == [] then 0.0 else Sum(xs[..|xs| - 1]) + xs[|xs| - 1]
  }

  function Mean(xs: seq<real>): real
    requires xs != []
  {
    Sum(xs) / |xs| as real
  }

  /** The 20 days before the last one. */
  function Window(history: seq<Record>): seq<Record>
    requires |history| > AvgVolumeDays
  {
    history[|history| - AvgVolumeDays - 1 .. |history| - 1]
  }

  /**
   * What the volume multiplier is. It needs 21 days. It is 0 when any of the 20
   * days before the last has a volume that is not a number, and 0 when their mean
   * is 0. It raises when the last day's volume is not a number. Otherwise it is the
   * last day's volume divided by the mean of the 20 days before it.
   */
  function VolumeMultiplier(history: seq<Record>): Outcome<real>
  {
    if |history| <= AvgVolumeDays || !AllVolumesParse(Window(history)) then Value(0.0)
    else
      match history[|history| - 1].volume
      case None => Raised(ConversionErrorMessage)
      case Some(current) =>
        var average := Mean(ParsedVolumes(Window(history)));
        if average == 0.0 then Value(0.0) else Value(current / average)
  }

  /**
   * The volume multiplier as the scanner computes it: a length guard of 20, the
   * slice `history[-21:-1]`, a loop that skips volumes that do not convert, and a
   * count check on what is left.
   */
  method CalculateVolumeMultiplier(history: seq<Record>) returns (r: Outcome<real>)
    ensures r == VolumeMultiplier(history)
  {
    if |history| == 0 || |history| < AvgVolumeDays {
      return Value(0.0);
    }
    // Python clamps the slice start -(AvgVolumeDays + 1) to the beginning of a shorter list
    var start := if |history| >= AvgVolumeDays + 1 then |history| - (AvgVolumeDays + 1) else 0;
    var days := history[start .. |history| - 1];
    var volumes: seq<real> := [];
    var i := 0;
    while i < |days|
      invariant 0 <= i <= |days|
      invariant volumes == ParsedVolumes(days[..i])
    {
      assert days[..i + 1][..i] == days[..i];
      match days[i].volume {
        case Some(v) => volumes := volumes + [v];
        case None => // float() raised: the day is skipped
      }
      i := i + 1;
    }
    assert days[..i] == days;
    ParsedVolumesLength(days);
    if |volumes| == 0 || |volumes| < AvgVolumeDays {
      return Value(0.0);
    }
    var average := Sum(volumes) / |volumes| as real;
    if history[|history| - 1].volume.None? {
      // the conversion of the last day's volume is outside the handler
      return Raised(ConversionErrorMessage);
    }
    var current := history[|history| - 1].volume.value;
    if average == 0.0 {
      return Value(0.0);
    }
    return Value(current / average);
  }

  /** Skipping loses volumes exactly when some volume does not convert; otherwise all are kept, in order. */
  lemma {:induction false} ParsedVolumesLength(days: seq<Record>)
    ensures |ParsedVolumes(days)| <= |days|
    ensures |ParsedVolumes(days)| == |days| <==> AllVolumesParse(days)
    ensures AllVolumesParse(days) ==>
      forall i :: 0 <= i < |days| ==> ParsedVolumes(days)[i] == days[i].volume.value
  {
    if days != [] {
      var init := days[..|days| - 1];
      ParsedVolumesLength(init);
      assert forall i :: 0 <= i < |init| ==> init[i] == days[i];
      assert AllVolumesParse(days) <==> AllVolumesParse(init) && days[|days| - 1].volume.Some?;
    }
  }

  /** c / a >= t, stated without the division. */
  lemma RatioAtLeast(c: real, a: real, t: real)
    requires a != 0.0
    ensures c / a >= t <==> (a > 0.0 && c >= t * a) || (a < 0.0 && c <= t * a)
  {
    var q := c / a;
    assert q * a == c;
    if a > 0.0 {
      assert q >= t ==> q * a >= t * a;
      assert q < t ==> q * a < t * a;
    } else {
      assert q >= t ==> q * a <= t * a;
      assert q < t ==> q * a > t * a;
    }
  }

  /**
   * A volume shocker: the multiplier reaches 2.5 exactly when 21 days are there,
   * the window's volumes and the last volume convert, and the last volume is at
   * least 2.5 times the window's mean (on the side of the mean's sign).
   */
  lemma VolumeShockerMeans(history: seq<Record>)
    ensures (VolumeMultiplier(history).Value? && VolumeMultiplier(history).value >= VolumeMultiplierThreshold) <==>
      (|history| > AvgVolumeDays && AllVolumesParse(Window(history)) && history[|history| - 1].volume.Some? &&
       var average := Mean(ParsedVolumes(Window(history)));
       var current := history[|history| - 1].volume.value;
       (average > 0.0 && current >= VolumeMultiplierThreshold * average) ||
       (average < 0.0 && current <= VolumeMultiplierThreshold * average))
  {
    if |history| > AvgVolumeDays && AllVolumesParse(Window(history)) && history[|history| - 1].volume.Some? {
      ParsedVolumesLength(Window(history));
      var average := Mean(ParsedVolumes(Window(history)));
      if average != 0.0 {
        RatioAtLeast(history[|history| - 1].volume.value, average, VolumeMultiplierThreshold);
      }
    }
  }

  /** Only the last 21 days count: earlier days never change the multiplier. */
  lemma MultiplierIgnoresOlderDays(older: seq<Record>, recent: seq<Record>)
    requires |recent| > AvgVolumeDays
    ensures VolumeMultiplier(older + recent) == VolumeMultiplier(recent)
  {
    var history := older + recent;
    assert Window(history) == Window(recent);
    assert history[|history| - 1] == recent[|recent| - 1];
  }

  // ================================================================ price gain

  /** The percentage change of the last close over the one before; 0 on any guard failure. */
  function PriceGain(history: seq<Record>): (gain: real)
    ensures |history| < 2 ==> gain == 0.0
    ensures (|history| >= 2 &&
             (history[|history| - 2].close.None? || history[|history| - 1].close.None?)) ==> gain == 0.0
    ensures |history| >= 2 && history[|history| - 2].close == Some(0.0) ==> gain == 0.0
    ensures (|history| >= 2 && history[|history| - 2].close.Some? && history[|history| - 1].close.Some? &&
             history[|history| - 2].close.value != 0.0) ==>
      gain * history[|history| - 2].close.value ==
        (history[|history| - 1].close.value - history[|history| - 2].close.value) * 100.0
  {
    if |history| < 2 then 0.0
    else
      match (history[|history| - 2].close, history[|history| - 1].close)
      case (Some(previous), Some(current)) =>
        if previous == 0.0 then 0.0 else (current - previous) / previous * 100.0
      case _ => 0.0 // float() raised and the handler returned 0
  }

  /**
   * A price gainer: the gain reaches 1 percent exactly when both closes convert
   * and the last close is at least 1.01 times the one before (on the side of its sign).
   */
  lemma PriceGainerMeans(history: seq<Record>)
    ensures PriceGain(history) >= MinPriceGainPct <==>
      (|history| >= 2 && history[|history| - 2].close.Some? && history[|history| - 1].close.Some? &&
       var previous := history[|history| - 2].close.value;
       var current := history[|history| - 1].close.value;
       (previous > 0.0 && current >= 1.01 * previous) || (previous < 0.0 && current <= 1.01 * previous))
  {
    if |history| >= 2 && history[|history| - 2].close.Some? && history[|history| - 1].close.Some? {
      var previous := history[|history| - 2].close.value;
      var current := history[|history| - 1].close.value;
      if previous != 0.0 {
        var ratio := (current - previous) / previous;
        assert PriceGain(history) == ratio * 100.0;
        assert ratio * 100.0 >= 1.0 <==> ratio >= 0.01;
        RatioAtLeast(current - previous, previous, 0.01);
      }
    }
  }

  /** Only the last two days count. */
  lemma PriceGainIgnoresOlderDays(older: seq<Record>, recent: seq<Record>)
    requires |recent| >= 2
    ensures PriceGain(older + recent) == PriceGain(recent)
  {
    var history := older + recent;
    assert history[|history| - 1] == recent[|recent| - 1];
    assert history[|history| - 2] == recent[|recent| - 2];
  }

  // ================================================================ one stock

  /** The decision for one symbol on its fetched records. */
  function ScanStock(symbol: string, history: seq<Record>): (r: Outcome<Option<ScanResult>>)
    ensures history == [] ==> r == Value(None)
    ensures r.Raised? ==> history != [] && r.message == ConversionErrorMessage
    ensures r.Value? && r.value.Some? ==>
      var last := history[|history| - 1];
      history != [] && r.value.value.symbol == symbol && last.close == Some(r.value.value.price) &&
      last.volume.Some? && r.value.value.currentVolume == TruncToInt(last.volume.value)
  {
    if history == [] then Value(None)
    else
      match VolumeMultiplier(history)
      case Raised(message) => Raised(message)
      case Value(multiplier) =>
        var gain := PriceGain(history);
        if multiplier >= VolumeMultiplierThreshold && gain >= MinPriceGainPct then
          var last := history[|history| - 1];
          match (last.close, last.volume)
          case (Some(price), Some(volume)) =>
            Value(Some(ScanResult(symbol, price, Round(gain, 2), Round(multiplier, 2), TruncToInt(volume))))
          case _ => Raised(ConversionErrorMessage)
        else Value(None)
  }

  predicate IsMatch(outcome: Outcome<Option<ScanResult>>)
  {
    outcome.Value? && outcome.value.Some?
  }

  /**
   * A symbol with no records gives no result. A symbol matches exactly when the
   * multiplier reaches 2.5 and the gain reaches 1 percent, and the result carries
   * the symbol, the last close, both metrics rounded to 2 decimals and the last
   * volume truncated to an integer. The scan of one symbol raises exactly when the
   * multiplier does.
   */
  lemma ScanStockMeans(symbol: string, history: seq<Record>)
    ensures history == [] ==> ScanStock(symbol, history) == Value(None)
    ensures ScanStock(symbol, history).Raised? <==> VolumeMultiplier(history).Raised?
    ensures IsMatch(ScanStock(symbol, history)) <==>
      (history != [] && VolumeMultiplier(history).Value? &&
       VolumeMultiplier(history).value >= VolumeMultiplierThreshold &&
       PriceGain(history) >= MinPriceGainPct)
    ensures IsMatch(ScanStock(symbol, history)) ==>
      var r := ScanStock(symbol, history).value.value;
      var last := history[|history| - 1];
      r.symbol == symbol && last.close == Some(r.price) && last.volume.Some? &&
      r.currentVolume == TruncToInt(last.volume.value) &&
      r.priceGainPct == Round(PriceGain(history), 2) &&
      r.volumeMultiplier == Round(VolumeMultiplier(history).value, 2)
  {
    if history != [] {
      PriceGainerMeans(history);
      VolumeShockerMeans(history);
    }
  }

  /** n days with the same close and volume. */
  function SteadyDays(n: nat, close: real, volume: real): (days: seq<Record>)
    ensures |days| == n
  {
    if n == 0 then [] else SteadyDays(n - 1, close, volume) + [Record(Some(close), Some(volume))]
  }

  /** Twenty steady days followed by one more day. */
  function SteadyThenLast(close: real, volume: real, last: Record): seq<Record>
  {
    SteadyDays(AvgVolumeDays, close, volume) + [last]
  }

  lemma {:induction false} SteadyVolumesSum(n: nat, close: real, volume: real)
    ensures ParsedVolumes(SteadyDays(n, close, volume)) == Repeat(n, volume)
    ensures Sum(Repeat(n, volume)) == n as real * volume
  {
    if n > 0 {
      SteadyVolumesSum(n - 1, close, volume);
      var days := SteadyDays(n, close, volume);
      assert days[..n - 1] == SteadyDays(n - 1, close, volume);
      assert Repeat(n, volume)[..n - 1] == Repeat(n - 1, volume);
      assert (n - 1) as real * volume + volume == n as real * volume;
    }
  }

  function Repeat(n: nat, v: real): (xs: seq<real>)
    ensures |xs| == n
  {
    if n == 0 then [] else Repeat(n - 1, v) + [v]
  }

  /** Volume 3000 after twenty days of 1000, close 102 after 100: a match with multiplier 3.0 and gain 2.0. */
  lemma VolumeShockerExample()
    ensures ScanStock("ABC", SteadyThenLast(100.0, 1000.0, Record(Some(102.0), Some(3000.0)))) ==
      Value(Some(ScanResult("ABC", 102.0, 2.0, 3.0, 3000)))
  {
    var history := SteadyThenLast(100.0, 1000.0, Record(Some(102.0), Some(3000.0)));
    var steady := SteadyDays(AvgVolumeDays, 100.0, 1000.0);
    assert Window(history) == steady;
    SteadyVolumesSum(AvgVolumeDays, 100.0, 1000.0);
    ParsedVolumesLength(steady);
    assert Mean(ParsedVolumes(Window(history))) == 1000.0;
    assert VolumeMultiplier(history) == Value(3.0);
    assert PriceGain(history) == 2.0;
    assert Pow10(2) == 100.0;
    assert RoundHalfEven(200.0) == 200;
    assert RoundHalfEven(300.0) == 300;
  }

  /** The same volumes with a close of 100.5 after 100 (a 0.5 percent gain): no match. */
  lemma SmallGainExample()
    ensures ScanStock("ABC", SteadyThenLast(100.0, 1000.0, Record(Some(100.5), Some(3000.0)))) == Value(None)
  {
    var history := SteadyThenLast(100.0, 1000.0, Record(Some(100.5), Some(3000.0)));
    var steady := SteadyDays(AvgVolumeDays, 100.0, 1000.0);
    assert Window(history) == steady;
    SteadyVolumesSum(AvgVolumeDays, 100.0, 1000.0);
    ParsedVolumesLength(steady);
    assert Mean(ParsedVolumes(Window(history))) == 1000.0;
    assert VolumeMultiplier(history) == Value(3.0);
    assert PriceGain(history) == 0.5;
  }

  // ================================================================ the scan over the universe

  /** The scan of one symbol: fetch its records from the provider, then decide. */
  function ScanWith(provider: string -> seq<Record>): string -> Outcome<Option<ScanResult>>
  {
    symbol => ScanStock(symbol, provider(symbol))
  }

  /**
   * The results of scanning the symbols in order with `scan`: one per match; no
   * result and a raised error add nothing.
   */
  function Matches(scan: string -> Outcome<Option<ScanResult>>, symbols: seq<string>): seq<ScanResult>
  {
    if symbols == [] then []
    else Matches(scan, symbols[..|symbols| - 1]) + Collected(scan(symbols[|symbols| - 1]))
  }

  /** A match is collected; no result and a raised error add nothing. */
  function Collected(outcome: Outcome<Option<ScanResult>>): (m: seq<ScanResult>)
    ensures |m| <= 1
    ensures forall r :: r in m <==> outcome == Value(Some(r))
  {
    match outcome case Value(Some(r)) => [r] case _ => []
  }

  /** Matches are collected in symbol order. */
  lemma {:induction false} MatchesAppend(scan: string -> Outcome<Option<ScanResult>>, a: seq<string>, b: seq<string>)
    ensures Matches(scan, a + b) == Matches(scan, a) + Matches(scan, b)
    decreases |b|
  {
    if b == [] {
      assert a + b == a;
    } else {
      var init := b[..|b| - 1];
      MatchesAppend(scan, a, init);
      assert (a + b)[..|a + b| - 1] == a + init;
      assert (a + b)[|a + b| - 1] == b[|b| - 1];
    }
  }

  /** A result is collected exactly when some symbol's scan produced it, and there is at most one per symbol. */
  lemma {:induction false} MatchesMembership(scan: string -> Outcome<Option<ScanResult>>, symbols: seq<string>, r: ScanResult)
    ensures |Matches(scan, symbols)| <= |symbols|
    ensures r in Matches(scan, symbols) <==>
      exists i :: 0 <= i < |symbols| && scan(symbols[i]) == Value(Some(r))
  {
    if symbols != [] {
      var init := symbols[..|symbols| - 1];
      var last := symbols[|symbols| - 1];
      MatchesMembership(scan, init, r);
      if r in Matches(scan, init) {
        var i :| 0 <= i < |init| && scan(init[i]) == Value(Some(r));
        assert symbols[i] == init[i];
      }
      if exists i :: 0 <= i < |symbols| && scan(symbols[i]) == Value(Some(r)) {
        var i :| 0 <= i < |symbols| && scan(symbols[i]) == Value(Some(r));
        if i < |init| {
          assert init[i] == symbols[i];
        }
      }
    }
  }

  /** An error on one symbol does not stop the scan: the others' matches are all there. */
  lemma MatchesSkipsFailures(scan: string -> Outcome<Option<ScanResult>>, before: seq<string>, symbol: string, after: seq<string>)
    requires scan(symbol).Raised?
    ensures Matches(scan, before + [symbol] + after) == Matches(scan, before) + Matches(scan, after)
  {
    var one := [symbol];
    assert one[..0] == [] && one[0] == symbol;
    assert Collected(scan(symbol)) == [];
    assert Matches(scan, one) == Matches(scan, []) + Collected(scan(symbol));
    MatchesAppend(scan, before + one, after);
    MatchesAppend(scan, before, one);
  }

  /** The symbol list after the optional limit: `symbols[:limit]` when the limit is truthy. */
  function Truncate(symbols: seq<string>, limit: Option<int>): (r: seq<string>)
    ensures r <= symbols
    ensures !TruthyInt(limit) ==> r == symbols
    ensures TruthyInt(limit) && limit.value > 0 ==> |r| == Min(|symbols|, limit.value)
  {
    if TruthyInt(limit) then PrefixSlice(symbols, limit.value) else symbols
  }

  class MomentumScanner {
    var results: seq<ScanResult>
    var testMode: bool
    var maxStocks: Option<int>

    /** A falsy limit is replaced by 10 in test mode and by no limit otherwise. */
    constructor (testMode: bool, maxStocks: Option<int>)
      ensures results == [] && this.testMode == testMode
      ensures this.maxStocks ==
        if TruthyInt(maxStocks) then maxStocks else if testMode then Some(TestModeLimit) else None
      ensures this.maxStocks == None || TruthyInt(this.maxStocks)
      ensures testMode ==> TruthyInt(this.maxStocks)
    {
      this.results := [];
      this.testMode := testMode;
      this.maxStocks := if TruthyInt(maxStocks) then maxStocks else if testMode then Some(TestModeLimit) else None;
    }

    /**
     * Scans the universe. With no symbols nothing changes. Otherwise `results`
     * is reset and ends as the matches among the (possibly truncated) symbols,
     * in symbol order; an error on one symbol is reported and skipped.
     */
    method ScanAll(response: Option<seq<Constituent>>, provider: string -> seq<Record>)
      modifies this
      ensures testMode == old(testMode) && maxStocks == old(maxStocks)
      ensures IndexSymbols(response) == [] ==> results == old(results)
      ensures IndexSymbols(response) != [] ==>
        results == Matches(ScanWith(provider), Truncate(IndexSymbols(response), maxStocks))
    {
      var symbols := GetIndexSymbols(response);
      if |symbols| == 0 {
        return;
      }
      if TruthyInt(maxStocks) {
        symbols := PrefixSlice(symbols, maxStocks.value);
      }
      results := [];
      var i := 0;
      while i < |symbols|
        invariant 0 <= i <= |symbols|
        invariant symbols == Truncate(IndexSymbols(response), maxStocks)
        invariant testMode == old(testMode) && maxStocks == old(maxStocks)
        invariant results == Matches(ScanWith(provider), symbols[..i])
      {
        assert symbols[..i + 1][..i] == symbols[..i];
        var symbol := symbols[i];
        var outcome := ScanWith(provider)(symbol);
        match outcome {
          case Value(Some(result)) => results := results + [result];
          case Value(None) =>
          case Raised(_) => // the handler reports the error and the scan goes on
        }
        assert results == Matches(ScanWith(provider), symbols[..i]) + Collected(outcome);
        i := i + 1;
      }
      assert symbols[..i] == symbols;
    }
  }
}
