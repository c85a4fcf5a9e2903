# Momentum scanner: a Dafny model

This project models the core of a small swing-trading companion that scans the
Nifty Smallcap 250 index for "volume shocker" stocks. A stock is a volume shocker
when its last day's traded volume is at least 2.5 times its 20-day average volume
and its close gained at least 1 percent over the previous close. The project
covers four modules:

- `Scanner` models `scanner.py`, the `MomentumScanner` class. It has:
  - the filter that turns the index's constituent list into stock symbols;
  - the two metrics, the volume multiplier and the price gain;
  - the decision for one symbol and the result record it builds;
  - the optional "first N" truncation and the scan over the whole universe.
- `App` models `app.py`, the web layer. It has:
  - the shared scan status;
  - the start request, with the scan type's limit, the rejection while a scan runs and the reset;
  - the background scan loop with cooperative cancellation;
  - the stop request and the status poll's elapsed time.
- `Builtins` holds the Python built-ins whose meaning matters to the model:
  - truthiness;
  - `round` (half to even);
  - `int()` (truncation toward zero);
  - `str.upper`, substring containment and the prefix slice `s[:n]`.
- `Wrappers` holds `Option`.

Values that come from outside are parameters. The constituent endpoint's reply is
an `Option<seq<Constituent>>`, and the historical data is a `provider` function from
symbol to records. The clock readings are parameters too. So is the point at which
a stop request is seen: `stopAt == Some(k)` means the cancellation check before the
k-th symbol finds `running` cleared.

A record field is `None` when `float()` would raise on it and `Some(0.0)` when its
key is missing. A computation that may raise an exception returns an
`Outcome` (`Value` or `Raised`).

Most operations have two definitions that are proved to agree:
- a declarative specification function, such as `VolumeMultiplier`, `IndexSymbols`,
  `Matches` or `RunSymbols`;
- a method with loops shaped like the source, such as `CalculateVolumeMultiplier`,
  `GetIndexSymbols`, `MomentumScanner.ScanAll` or `ScanStatus.ScanSymbols`.

Lemmas then state what the specification functions mean.

Some behaviour of the code is easy to misread from its names and comments. The
model follows the code:
- `calculate_volume_multiplier` guards the history length with `< 20`, but it still
  needs 21 records to return anything other than 0. With 20 records, the slice
  `[-21:-1]` holds only 19 days, and the count check then returns 0.
  `CalculateVolumeMultiplier` is proved equal to the 21-day `VolumeMultiplier`.
- The loop over the window skips a volume that does not convert. A skipped day still
  makes the count check fail, so the multiplier is 0. A non-numeric last volume
  raises, because its conversion is outside the handler.
- `scan_all` catches an error raised for one symbol and moves on. The loop of
  `run_scan` has no handler of its own: the error ends the whole scan.
- When `run_scan` ends by an error, the handler records the message and `finally`
  clears `running`. The results are not published and the end time is not set, so
  the poll's elapsed time keeps growing with the poll clock.
- During a web scan the status's `results` stay empty. The matches gather on the
  scanner object and are published once, after the loop.
- An unrecognised scan type gets no limit, the same as "full".

## Model

| member | source | states |
|---|---|---|
| `Scanner.GetIndexSymbols` | scanner.py:25-49 | the filter loop returns exactly `IndexSymbols`: nothing without data, nothing when an entry's symbol is not a string, otherwise the symbols of the kept entries |
| `Scanner.StockSymbolsAppend` | scanner.py:35-40 | the filter distributes over concatenation, so it keeps the list's order |
| `Scanner.StockSymbolsMembership` | scanner.py:36-40 | a symbol is returned iff some entry carries it with no "NIFTY" in its upper-cased form and a non-empty series |
| `Scanner.CalculateVolumeMultiplier` | scanner.py:68-91 | the source-shaped computation (length guard 20, clamped slice, skip loop, count check, raise on a non-numeric last volume, 0 on a zero mean) equals the declarative 21-day multiplier |
| `Scanner.ParsedVolumesLength` | scanner.py:74-83 | skipping keeps at most all volumes; it keeps all of them iff every one converts, and then in order with their values |
| `Scanner.VolumeShockerMeans` | scanner.py:82-91 | the multiplier reaches 2.5 iff there are 21 days, all window volumes and the last volume convert, and the last volume is at least 2.5 times the window mean |
| `Scanner.MultiplierIgnoresOlderDays` | scanner.py:75 | days before the last 21 never change the multiplier |
| `Scanner.PriceGain` | scanner.py:93-108 | the gain is 0 with fewer than 2 records, when either close does not convert, and when the previous close is 0; otherwise the gain times the previous close is 100 times the change in close |
| `Scanner.PriceGainerMeans` | scanner.py:93-108 | the gain reaches 1 percent iff both closes convert and the last close is at least 1.01 times the previous one, on the side of the previous close's sign |
| `Scanner.PriceGainIgnoresOlderDays` | scanner.py:99-100 | only the last two closes matter |
| `Scanner.ScanStock` | scanner.py:110-136 | no records give no result; a raise carries the volume conversion error; a result carries the symbol, the last close as its price, and the last volume truncated to an integer |
| `Scanner.ScanStockMeans` | scanner.py:110-136 | no records give no result; one symbol's scan raises iff the multiplier raises; it matches iff both thresholds hold; the result holds the symbol, the last close, both metrics rounded to 2 decimals and the truncated last volume |
| `Scanner.VolumeShockerExample` | scanner.py:117-134 | twenty days of volume 1000 then 3000, close 100 then 102, give a match with multiplier 3.0, gain 2.0 and volume 3000 |
| `Scanner.SmallGainExample` | scanner.py:121-124 | the same volumes with a 0.5 percent gain give no match |
| `Scanner.Collected` | scanner.py:165-166 | a symbol adds at most one result, and only when its scan produced a match |
| `Scanner.MatchesAppend` | scanner.py:160-166 | results are collected in symbol order: the matches of a concatenation are the concatenated matches |
| `Scanner.MatchesMembership` | scanner.py:157-171 | there are at most as many results as symbols, and a result is collected iff some symbol's scan produced it |
| `Scanner.MatchesSkipsFailures` | scanner.py:163-171 | a symbol whose scan raises is skipped and the scan of the others is unaffected |
| `Scanner.Truncate` | scanner.py:147-148 | the scanned symbols are a prefix of the universe; all of it for a falsy limit, and the first min(n, size) for a positive limit n |
| `Scanner.MomentumScanner.constructor` | scanner.py:20-23 | a falsy limit becomes 10 in test mode and none otherwise; the stored limit is none or truthy, and always truthy in test mode |
| `Scanner.MomentumScanner.ScanAll` | scanner.py:138-180 | with no symbols nothing changes; otherwise `results` becomes the matches among the truncated symbols, in order |
| `Builtins.RoundHalfEven` | scanner.py:131-132 | the nearest integer, with exact half-way cases going to the even one |
| `Builtins.RoundIsClose` | scanner.py:131-132 | `round(x, d)` moves x by at most half a unit in the d-th decimal |
| `Builtins.TruncToInt` | scanner.py:133 | `int()` truncates toward zero: it never passes x and is within 1 of it, on x's side of 0 |
| `Builtins.PrefixSlice` | scanner.py:148 | `s[:n]` is a prefix of s of length min(n, size), or size + n clamped at 0 for a negative n |
| `App.ScanLimit` | app.py:89-98 | only "test" and "medium" are limited, and every limit is positive, so it truncates |
| `App.ScanLimitValues` | app.py:90-98 | a request without a type is a test scan of 10; medium is 50 and full is unlimited |
| `App.Elapsed` | app.py:122-125 | there is no elapsed time exactly when no start time is set |
| `App.ElapsedIsClose` | app.py:125 | the reported elapsed time is within 0.05 s of end (or now) minus start |
| `App.ElapsedFrozenAtEnd` | app.py:124 | once the end time is set, the poll time does not matter |
| `App.RunSymbolsMeans` | app.py:55-63 | the loop finishes iff no symbol's scan raises, with exactly the scanner's matches; otherwise it fails at the first raising symbol with that error's message |
| `App.RunFailurePersists` | app.py:55-70 | symbols after the first error are never reached |
| `App.ScanStatus.constructor` | app.py:14-22 | the status starts at its defaults |
| `App.ScanStatus.StartScan` | app.py:81-116 | keeps 0 <= progress <= total; while running: rejected with "Scan already running" and status 400, nothing changed; otherwise the status is reset, the reply carries the message and the type, and `Started` also carries the limit handed to the background scan |
| `App.ScanStatus.StopScan` | app.py:137-142 | clears `running`, changes nothing else and keeps 0 <= progress <= total |
| `App.ScanStatus.GetStatus` | app.py:119-134 | the poll's elapsed time is absent before a start, measured to the end time once set and to now before that |
| `App.ScanStatus.RunScan` | app.py:28-53 | with no symbols: "No symbols found", nothing published; otherwise the total is the truncated count and the outcome is that of `ScanSymbols`; `running` always ends cleared and 0 <= progress <= total holds at exit and throughout the loop |
| `App.ScanStatus.ScanSymbols` | app.py:55-72 | on the symbols before the stop: a finished run publishes its matches and the end time with progress at the count; a failed run records the message, publishes nothing and leaves progress at the failing symbol |
| `App.ScanStatus.StartAndRun` | app.py:111-114 | a rejected start changes nothing; an accepted one replies with the message and the type (and the limit handed to the scan), and its scan, run from the reset status, leaves the status idle with the start time set. With no symbols the error is "No symbols found" and total, progress and results stay at 0. Otherwise the total is the truncated count; a finished run publishes its matches and the end time, and a failed run records the message with no results and no end time, so it ends without an end time iff it failed |

## Left out

- The network calls of `nsefetch`, date arithmetic and `get_historical_data` are not modelled. The replies are parameters (`response`, `provider`), and a failed fetch is an empty reply or empty history.
- `time.time()` and `time.sleep` are not modelled. Clock readings are parameters, and the delays do not affect any result.
- The Flask routes, JSON encoding, `index()` and the server start-up are not modelled. The replies are datatypes with the same fields. `StartReply.Started` also carries the limit that the start hands to the background scan (app.py:112), which the JSON reply (app.py:116) does not contain.
- Threads and concurrency are not modelled. The background scan runs as a call, and a stop request is a point in the loop (`stopAt`). Overlapping status polls are not modelled. Neither is the window after a start where `running` is still false, during which a second start would be accepted.
- The `scanner_instance` global is not modelled, because nothing in the core reads it.
- `save_results`, `display_results`, `main` and all printing are not modelled, because they are output only.
- IEEE floating point is not modelled. Numbers are exact reals, so NaN, infinities and binary rounding of `round` are not captured.
- `str.upper` is modelled for ASCII letters only.
- A reply whose `data` is not a list of dictionaries is not modelled. Neither is a start request whose `type` is present but not a string.
- Error messages are not modelled. The text of an exception raised on a non-numeric volume is one constant, `ConversionErrorMessage`.
- `App.ScanStatus.GetStatus`: its contract states only the elapsed field. The other fields are a plain copy of the status.
