/**
 * The web layer's scan orchestration: the shared scan status, the start request
 * (scan type to symbol limit, rejection while a scan runs, reset of the status),
 * the background scan loop with its cooperative cancellation, the stop request
 * and the elapsed time the status poll reports.
 *
 * Clock readings are parameters (`startClock`, `endClock`, `now`), and so is the
 * moment a stop request is seen: `stopAt == Some(k)` means the loop's check before
 * the k-th symbol (counting from 1) finds `running` cleared.
 */
module App {
  import opened Wrappers
  import opened Builtins
  import opened Scanner

  const NoSymbolsMessage: string := "No symbols found"
  const AlreadyRunningMessage: string := "Scan already running"
  const StartedMessage: string := "Scan started"
  const StoppedMessage: string := "Scan stopped"
  const BadRequestStatus: int := 400

  // ================================================================ start request

  /** The scan type of a start request; a request without one asks for a test scan. */
  function RequestedType(requested: Option<string>): string
  {
    requested.GetOr("test")
  }

  /**
   * The symbol limit of a scan type. Only "test" and "medium" are limited, and
   * every limit is a positive number, so it always truncates.
   */
  function ScanLimit(scanType: string): (limit: Option<int>)
    ensures limit.Some? <==> scanType == "test" || scanType == "medium"
    ensures limit.Some? ==> TruthyInt(limit) && limit.value > 0
  {
    if scanType == "test" then Some(10)
    else if scanType == "medium" then Some(50)
    else if scanType == "full" then None
    else None
  }

  lemma ScanLimitValues()
    ensures ScanLimit(RequestedType(None)) == Some(10)
    ensures ScanLimit("medium") == Some(50)
    ensures ScanLimit("full") == None
  {
  }

  /** The reply to a start request, with the limit handed to the background scan. */
  datatype StartReply =
    | Started(message: string, scanType: string, limit: Option<int>)
    | Rejected(error: string, httpStatus: int)

  // ================================================================ status poll

  /**
   * The elapsed seconds of a status poll: none before a scan has started, and
   * otherwise the time from the start to the end (or to now while there is no
   * end), rounded to 1 decimal.
   */
  function Elapsed(startTime: Option<real>, endTime: Option<real>, now: real): (e: Option<real>)
    ensures e.None? <==> !TruthyReal(startTime)
  {
    if TruthyReal(startTime) then
      var end := if TruthyReal(endTime) then endTime.value else now;
      Some(Round(end - startTime.value, 1))
    else None
  }

  /** The reported value is within 0.05 seconds of the exact duration. */
  lemma ElapsedIsClose(startTime: Option<real>, endTime: Option<real>, now: real)
    requires TruthyReal(startTime)
    ensures var end := if TruthyReal(endTime) then endTime.value else now;
      -0.05 <= Elapsed(startTime, endTime, now).value - (end - startTime.value) <= 0.05
  {
    var end := if TruthyReal(endTime) then endTime.value else now;
    RoundIsClose(end - startTime.value, 1);
    assert Pow10(1) == 10.0;
  }

  /** Once the end time is set, the poll time no longer matters. */
  lemma ElapsedFrozenAtEnd(startTime: Option<real>, endTime: Option<real>, now1: real, now2: real)
    requires TruthyReal(endTime)
    ensures Elapsed(startTime, endTime, now1) == Elapsed(startTime, endTime, now2)
  {
  }

  /** What the status poll returns. */
  datatype StatusView = StatusView(
    running: bool,
    progress: int,
    total: int,
    results: seq<ScanResult>,
    error: Option<string>,
    elapsed: Option<real>)

  // ================================================================ the scan loop, as values

  /** How a run of the loop over some symbols ends: with its matches, or at the first error. */
  datatype RunEnd = Finished(found: seq<ScanResult>) | Failed(at: nat, message: string)

  /** The loop over `symbols` with no cancellation; an error ends it. */
  function RunSymbols(scan: string -> Outcome<Option<ScanResult>>, symbols: seq<string>): RunEnd
  {
    if symbols == [] then Finished([])
    else
      match RunSymbols(scan, symbols[..|symbols| - 1])
      case Failed(at, message) => Failed(at, message)
      case Finished(found) =>
        match scan(symbols[|symbols| - 1])
        case Raised(message) => Failed(|symbols| - 1, message)
        case Value(None) => Finished(found)
        case Value(Some(r)) => Finished(found + [r])
  }

  /**
   * A run finishes exactly when no symbol's scan raises, and then its matches are
   * those of the scanner's own loop. A run that fails stops at the first symbol
   * whose scan raises, with that error's message.
   */
  lemma {:induction false} RunSymbolsMeans(scan: string -> Outcome<Option<ScanResult>>, symbols: seq<string>)
    ensures RunSymbols(scan, symbols).Finished? <==>
      forall i :: 0 <= i < |symbols| ==> !scan(symbols[i]).Raised?
    ensures RunSymbols(scan, symbols).Finished? ==>
      RunSymbols(scan, symbols).found == Matches(scan, symbols)
    ensures RunSymbols(scan, symbols).Failed? ==>
      var at := RunSymbols(scan, symbols).at;
      at < |symbols| && scan(symbols[at]) == Raised(RunSymbols(scan, symbols).message) &&
      forall i :: 0 <= i < at ==> !scan(symbols[i]).Raised?
  {
    if symbols != [] {
      var init := symbols[..|symbols| - 1];
      RunSymbolsMeans(scan, init);
      assert forall i :: 0 <= i < |init| ==> init[i] == symbols[i];
      assert Matches(scan, symbols) == Matches(scan, init) + Collected(scan(symbols[|symbols| - 1]));
    }
  }

  /** Symbols after the first error are never reached. */
  lemma {:induction false} RunFailurePersists(scan: string -> Outcome<Option<ScanResult>>, symbols: seq<string>, j: nat, k: nat)
    requires j <= k <= |symbols| && RunSymbols(scan, symbols[..j]).Failed?
    ensures RunSymbols(scan, symbols[..k]) == RunSymbols(scan, symbols[..j])
    decreases k
  {
    if k > j {
      RunFailurePersists(scan, symbols, j, k - 1);
      assert symbols[..k][..k - 1] == symbols[..k - 1];
    }
  }

  /** How many symbols pass the cancellation check when the stop is seen before symbol stopAt. */
  function Processed(n: nat, stopAt: Option<nat>): nat
  {
    if stopAt.Some? && 1 <= stopAt.value <= n then stopAt.value - 1 else n
  }

  // ================================================================ the shared status

  class ScanStatus {
    var running: bool
    var progress: int
    var total: int
    var results: seq<ScanResult>
    var error: Option<string>
    var startTime: Option<real>
    var endTime: Option<real>

    /** The defaults the status starts from and is reset to. */
    predicate IsReset()
      reads this
    {
      !running && progress == 0 && total == 0 && results == [] &&
      error == None && startTime == None && endTime == None
    }

    /** The invariant of the status: progress never passes the total. */
    predicate Valid()
      reads this
    {
      0 <= progress <= total
    }

    constructor ()
      ensures IsReset() && Valid()
    {
      running := false;
      progress := 0;
      total := 0;
      results := [];
      error := None;
      startTime := None;
      endTime := None;
    }

    /**
     * A start request. While a scan runs it is rejected and nothing changes;
     * otherwise the status is reset and the reply carries the scan type and the
     * limit the background scan is started with.
     */
    method StartScan(requested: Option<string>) returns (reply: StartReply)
      requires Valid()
      modifies this
      ensures Valid()
      ensures old(running) ==> reply == Rejected(AlreadyRunningMessage, BadRequestStatus) && unchanged(this)
      ensures !old(running) ==>
        IsReset() && Valid() &&
        reply == Started(StartedMessage, RequestedType(requested), ScanLimit(RequestedType(requested)))
    {
      if running {
        return Rejected(AlreadyRunningMessage, BadRequestStatus);
      }
      var scanType := RequestedType(requested);
      var limit := ScanLimit(scanType);
      running := false;
      progress := 0;
      total := 0;
      results := [];
      error := None;
      startTime := None;
      endTime := None;
      return Started(StartedMessage, scanType, limit);
    }

    /** A stop request clears `running`, whether or not a scan runs, and touches nothing else. */
    method StopScan() returns (message: string)
      requires Valid()
      modifies this`running
      ensures Valid()
      ensures !running && message == StoppedMessage
    {
      running := false;
      message := StoppedMessage;
    }

    /**
     * The status poll: a snapshot of the status with the elapsed time, which is
     * absent before a scan started and measured to the end time once there is one.
     */
    function GetStatus(now: real): (view: StatusView)
      reads this
      ensures view.elapsed.None? <==> !TruthyReal(startTime)
      ensures TruthyReal(startTime) && TruthyReal(endTime) ==>
        view.elapsed == Some(Round(endTime.value - startTime.value, 1))
      ensures TruthyReal(startTime) && !TruthyReal(endTime) ==>
        view.elapsed == Some(Round(now - startTime.value, 1))
    {
      StatusView(running, progress, total, results, error, Elapsed(startTime, endTime, now))
    }

    /**
     * The background scan. It marks the status running, fetches the universe, and
     * with no symbols records "No symbols found". Otherwise it truncates the symbols
     * to the limit, sets `total`, and runs the loop of `ScanSymbols` over them.
     * Every path clears `running`.
     */
    method RunScan(maxStocks: Option<int>, response: Option<seq<Constituent>>,
                   provider: string -> seq<Record>, stopAt: Option<nat>,
                   startClock: real, endClock: real)
      requires Valid()
      modifies this
      ensures Valid()
      ensures !running
      ensures startTime == Some(startClock)
      ensures IndexSymbols(response) == [] ==>
        error == Some(NoSymbolsMessage) && results == [] &&
        progress == old(progress) && total == old(total) && endTime == old(endTime)
      ensures IndexSymbols(response) != [] ==>
        var symbols := Truncate(IndexSymbols(response), maxStocks);
        var done := Processed(|symbols|, stopAt);
        total == |symbols| && 0 <= progress <= total &&
        match RunSymbols(ScanWith(provider), symbols[..done])
        case Finished(found) =>
          results == found && progress == done && error == None && endTime == Some(endClock)
        case Failed(at, message) =>
          results == [] && progress == at + 1 && error == Some(message) && endTime == old(endTime)
    {
      running := true;
      error := None;
      results := [];
      startTime := Some(startClock);
      var scanner := new MomentumScanner(false, maxStocks);
      var symbols := GetIndexSymbols(response);
      if |symbols| == 0 {
        error := Some(NoSymbolsMessage);
        running := false;
        return;
      }
      if TruthyInt(maxStocks) {
        symbols := PrefixSlice(symbols, maxStocks.value);
      }
      total := |symbols|;
      progress := 0;
      scanner.results := [];
      ScanSymbols(scanner, symbols, ScanWith(provider), stopAt, endClock);
    }

    /**
     * The loop of the background scan. Before each symbol it checks `running`,
     * stopping when a stop request has cleared it, and sets `progress` to the
     * symbol's 1-based position; the matches gather in the scanner's results. They
     * are published to `results` only after the loop, which also sets the end time.
     * An error raised by a symbol's scan ends the scan with the error's message and
     * no published results or end time. Every path clears `running`.
     */
    method ScanSymbols(scanner: MomentumScanner, symbols: seq<string>,
                       scan: string -> Outcome<Option<ScanResult>>, stopAt: Option<nat>,
                       endClock: real)
      requires running && error == None && results == [] && scanner.results == []
      requires progress == 0 && total == |symbols|
      modifies this, scanner
      ensures !running && total == old(total) && startTime == old(startTime)
      ensures Valid()
      ensures var done := Processed(|symbols|, stopAt);
        match RunSymbols(scan, symbols[..done])
        case Finished(found) =>
          results == found && progress == done && error == None && endTime == Some(endClock)
        case Failed(at, message) =>
          results == [] && progress == at + 1 && error == Some(message) && endTime == old(endTime)
    {
      ghost var done := Processed(|symbols|, stopAt);
      var i := 0;
      while i < |symbols|
        invariant 0 <= i <= done <= |symbols|
        invariant running && error == None && progress == i && total == |symbols|
        invariant results == [] // published only after the loop
        invariant startTime == old(startTime) && endTime == old(endTime)
        invariant RunSymbols(scan, symbols[..i]) == Finished(scanner.results)
      {
        if stopAt == Some(i + 1) {
          // the stop request is seen by this iteration's check
          var stopped := StopScan();
        }
        if !running {
          break;
        }
        progress := i + 1;
        var outcome := scan(symbols[i]);
        assert symbols[..i + 1][..i] == symbols[..i];
        if outcome.Raised? {
          // the exception leaves the loop; the handler records it and clears running
          error := Some(outcome.message);
          running := false;
          RunFailurePersists(scan, symbols, i + 1, done);
          return;
        }
        if outcome.value.Some? {
          scanner.results := scanner.results + [outcome.value.value];
        }
        i := i + 1;
      }
      results := scanner.results;
      endTime := Some(endClock);
      running := false;
    }

    /**
     * A start request followed, when it is accepted, by the background scan it
     * starts, from the reset status: a run that raises leaves no end time, and a
     * universe with no symbols leaves the total and the progress at 0.
     */
    method StartAndRun(requested: Option<string>, response: Option<seq<Constituent>>,
                       provider: string -> seq<Record>, stopAt: Option<nat>,
                       startClock: real, endClock: real) returns (reply: StartReply)
      requires Valid()
      modifies this
      ensures old(running) ==> reply == Rejected(AlreadyRunningMessage, BadRequestStatus) && unchanged(this)
      ensures !old(running) ==>
        reply == Started(StartedMessage, RequestedType(requested), ScanLimit(RequestedType(requested))) &&
        !running && Valid() && startTime == Some(startClock)
      ensures !old(running) && IndexSymbols(response) == [] ==>
        error == Some(NoSymbolsMessage) && results == [] && total == 0 && progress == 0 && endTime == None
      ensures !old(running) && IndexSymbols(response) != [] ==>
        var symbols := Truncate(IndexSymbols(response), ScanLimit(RequestedType(requested)));
        var done := Processed(|symbols|, stopAt);
        total == |symbols| &&
        match RunSymbols(ScanWith(provider), symbols[..done])
        case Finished(found) =>
          results == found && progress == done && error == None && endTime == Some(endClock)
        case Failed(at, message) =>
          results == [] && progress == at + 1 && error == Some(message) && endTime == None
      ensures !old(running) && IndexSymbols(response) != [] ==>
        var symbols := Truncate(IndexSymbols(response), ScanLimit(RequestedType(requested)));
        RunSymbols(ScanWith(provider), symbols[..Processed(|symbols|, stopAt)]).Failed? <==> endTime == None
    {
      reply := StartScan(requested);
      if reply.Started? {
        RunScan(reply.limit, response, provider, stopAt, startClock, endClock);
      }
    }
  }
}
