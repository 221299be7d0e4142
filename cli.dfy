/** `main`: the command layer.  It takes the parsed arguments, runs the
    client, prints, and ends the process with an exit code.

    What the client's two requests and the file write produce is given as
    input.  What `print` writes is a sequence of `Output` values, one per `print`
    call; the log records that go to the same standard output are not
    part of it.  An exception that `main` does not catch ends the process with exit
    code 1, like Python does; what it leaves on standard error is not
    modelled. */
module Cli {
  import opened Wrappers
  import opened Dates
  import opened AsciiCase
  import opened JsonValues
  import opened Client

  /** The arguments `argparse` produces. */
  datatype Args = Args(
    fromCurrency: string,
    toCurrency: string,
    date: string,
    url: string,
    key: string,
    listCurrencies: bool)

  /** One `print` call. */
  datatype Output =
    | Text(line: string)
        // a line whose text the model knows exactly
    | Shown(prefix: string, value: Json)
        // `prefix` followed by Python's `str()` of a value that is not a string
    | Fixed6(prefix: string, value: Json)
        // `prefix` followed by the number formatted with `:.6f`

  /** Everything one run does that the model observes: the `print` lines, the
      requests sent, the path `save_to_file` returned and the exit code.  A
      write that fails after `open` has created or truncated the file
      returns no path; what such a write leaves on disk is not modelled. */
  datatype RunResult = RunResult(printed: seq<Output>, requests: seq<Request>, saved: Option<string>, exitCode: int)

  const AvailableHeading := "Available currencies:"
  const ItemPrefix := "  - "
  const RetrieveFailed := "Failed to retrieve exchange rate. Check error.log for details."
  /** The marks that open the two final messages. */
  const CheckMark := '✓'
  const CrossMark := '✗'

  const SavedPrefix := [CheckMark] + " Data saved to: "
  const SaveFailed := [CrossMark] + " Failed to save data to file. Check error.log for details."

  function Rule(n: nat): (r: string)
    ensures |r| == n && forall i :: 0 <= i < n ==> r[i] == '='
  {
    seq(n, _ => '=')
  }

  const BannerTop := "\n" + Rule(60)
  const BannerTitle := "Exchange Rate Information"
  const BannerBottom := Rule(60) + "\n"

  /** An f-string field: a string is inserted as it is. */
  function Show(prefix: string, v: Json): Output {
    if v.JStr? then Text(prefix + v.s) else Shown(prefix, v)
  }

  /** The listing loop: one line per item, the item after a two-space
      dash. */
  function ListingLines(items: seq<Json>): (lines: seq<Output>)
    ensures |lines| == |items|
    ensures forall i :: 0 <= i < |items| ==> lines[i] == Show(ItemPrefix, items[i])
  {
    seq(|items|, i requires 0 <= i < |items| => Show(ItemPrefix, items[i]))
  }

  /** Listing mode succeeds when the client returned a non-empty iterable. */
  predicate ListingSucceeds(currencies: Option<Json>) {
    currencies.Some? && Truthy(currencies.value) && Iterate(currencies.value).Some?
  }

  function Pow2(n: nat): (r: int)
    ensures r > 0
  {
    if n == 0 then 1 else 2 * Pow2(n - 1)
  }

  /** An `int` formatted with `:.6f` is first converted to a 64-bit float,
      rounding to nearest.  From 2^1024 - 2^970 on the magnitude rounds to
      2^1024, past the largest double, and the conversion raises
      `OverflowError`. */
  const FloatOverflow := Pow2(1024) - Pow2(970)

  /** The format `:.6f` accepts a `float`, a `bool` and an `int` a double can
      hold. */
  predicate FormatsAsFixed(v: Json) {
    || v.JFloat?
    || v.JBool?
    || (v.JInt? && -FloatOverflow < v.i < FloatOverflow)
  }

  /** `rate_data['from']`, `['to']`, `['rate']:.6f` and `['date']` all
      succeed. */
  predicate BannerCompletes(rateData: Json) {
    && HasKey(rateData, "from")
    && HasKey(rateData, "to")
    && HasKey(rateData, "rate") && FormatsAsFixed(Lookup(rateData, "rate").value)
    && HasKey(rateData, "date")
  }

  /** The banner is printed when the result has a `data` key; printing it
      is the only step of the rate path that can raise. */
  predicate BannerSafe(result: Json) {
    HasKey(result, "data") ==> BannerCompletes(Lookup(result, "data").value)
  }

  datatype Banner = Banner(lines: seq<Output>, completed: bool)

  /** The banner for `rate_data`: the lines printed before it ended or
      raised. */
  function PrintBanner(rateData: Json): (b: Banner)
    ensures b.completed <==> BannerCompletes(rateData)
    ensures 3 <= |b.lines| <= 8
    ensures b.lines[..3] == [Text(BannerTop), Text(BannerTitle), Text(Rule(60))]
    ensures b.completed ==> |b.lines| == 8 && b.lines[7] == Text(BannerBottom)
    ensures b.completed ==>
              && b.lines[3] == Show("From:     ", Lookup(rateData, "from").value)
              && b.lines[4] == Show("To:       ", Lookup(rateData, "to").value)
              && b.lines[5] == Fixed6("Rate:     ", Lookup(rateData, "rate").value)
              && b.lines[6] == Show("Date:     ", Lookup(rateData, "date").value)
    ensures !b.completed ==> |b.lines| < 8
  {
    var head := [Text(BannerTop), Text(BannerTitle), Text(Rule(60))];
    match Lookup(rateData, "from")
    case None => Banner(head, false)
    case Some(f) =>
      var head := head + [Show("From:     ", f)];
      match Lookup(rateData, "to")
      case None => Banner(head, false)
      case Some(t) =>
        var head := head + [Show("To:       ", t)];
        match Lookup(rateData, "rate")
        case None => Banner(head, false)
        case Some(rate) =>
          if !FormatsAsFixed(rate) then Banner(head, false)
          else
            var head := head + [Fixed6("Rate:     ", rate)];
            match Lookup(rateData, "date")
            case None => Banner(head, false)
            case Some(d) => Banner(head + [Show("Date:     ", d), Text(BannerBottom)], true)
  }

  function ClientFor(args: Args): CurrencyExchangeClient {
    CurrencyExchangeClient(args.url, args.key)
  }

  /** What a run in listing mode does: one request, no file, exit 0 exactly
      for a non-empty iterable.  A truthy result prints the heading and then
      one line per item; one that cannot be iterated raises after the
      heading.  A failure or a falsy result prints nothing. */
  predicate ListingRun(client: CurrencyExchangeClient, reply: Transport, r: RunResult) {
    var currencies := client.GetAvailableCurrencies(reply);
    && r.requests == [client.CurrenciesRequest()]
    && r.saved.None?
    && (r.exitCode == 0 || r.exitCode == 1)
    && (r.exitCode == 0 <==> ListingSucceeds(currencies))
    && r.printed == (if currencies.Some? && Truthy(currencies.value)
                    then [Text(AvailableHeading)] + (match Iterate(currencies.value)
                                                     case None => []
                                                     case Some(items) => ListingLines(items))
                    else [])
  }

  /** What a run in rate mode does. */
  predicate RateRun(client: CurrencyExchangeClient, args: Args, reply: Transport, write: WriteOutcome, r: RunResult) {
    var e := client.GetExchangeRate(args.fromCurrency, args.toCurrency, args.date, reply);
    var path := SavePath(Upper(args.fromCurrency), Upper(args.toCurrency), args.date);
    && (r.exitCode == 0 || r.exitCode == 1)
    // no request for an invalid date
    && r.requests == (if ValidateDate(args.date)
                      then [client.RateRequest(args.fromCurrency, args.toCurrency, args.date)]
                      else [])
    // a failure marker prints one line and exits 1, saving nothing
    && (e.result.None? ==> r.printed == [Text(RetrieveFailed)] && r.exitCode == 1 && r.saved.None?)
    // otherwise the banner when the result has `data`, then, unless the
    // banner raised, the outcome of the save
    && (e.result.Some? ==>
          r.printed == (if HasKey(e.result.value, "data")
                       then PrintBanner(Lookup(e.result.value, "data").value).lines
                       else [])
                      + (if !BannerSafe(e.result.value) then []
                         else if write.Written? then [Text(SavedPrefix + path)]
                         else [Text(SaveFailed)]))
    // exit 0 exactly when a result came back, its banner did not raise and
    // the write succeeded; the path is named by the upper-cased codes
    && (r.exitCode == 0 <==> e.result.Some? && BannerSafe(e.result.value) && write.Written?)
    && (r.saved.Some? <==> r.exitCode == 0)
    && (r.saved.Some? ==> r.saved.value == path)
  }

  /** The listing branch of `main` (`--list-currencies`). */
  method ListCurrencies(client: CurrencyExchangeClient, reply: Transport) returns (r: RunResult)
    ensures ListingRun(client, reply, r)
  {
    var currencies := client.GetAvailableCurrencies(reply);
    var requests := [client.CurrenciesRequest()];
    var printed: seq<Output> := [];
    if currencies.Some? && Truthy(currencies.value) {
      printed := printed + [Text(AvailableHeading)];
      var items := Iterate(currencies.value);
      if items.None? {
        // `for` over a value that is not iterable raises TypeError
        return RunResult(printed, requests, None, 1);
      }
      var i := 0;
      while i < |items.value|
        invariant 0 <= i <= |items.value|
        invariant printed == [Text(AvailableHeading)] + ListingLines(items.value[..i])
      {
        printed := printed + [Show(ItemPrefix, items.value[i])];
        i := i + 1;
      }
      assert items.value[..i] == items.value;
      return RunResult(printed, requests, None, 0);
    }
    return RunResult(printed, requests, None, 1);
  }

  /** The rate branch of `main`: fetch, print the banner, save. */
  method FetchAndSave(client: CurrencyExchangeClient, args: Args, reply: Transport, write: WriteOutcome) returns (r: RunResult)
    ensures RateRun(client, args, reply, write, r)
  {
    var exchange := client.GetExchangeRate(args.fromCurrency, args.toCurrency, args.date, reply);
    var requests := if exchange.request.Some? then [exchange.request.value] else [];
    if exchange.result.None? {
      return RunResult([Text(RetrieveFailed)], requests, None, 1);
    }
    var result := exchange.result.value;

    var printed: seq<Output> := [];
    if HasKey(result, "data") {
      var banner := PrintBanner(Lookup(result, "data").value);
      printed := printed + banner.lines;
      if !banner.completed {
        // KeyError, TypeError or ValueError escapes `main`
        return RunResult(printed, requests, None, 1);
      }
    }

    var filepath := client.SaveToFile(result, Upper(args.fromCurrency), Upper(args.toCurrency), args.date, write);
    if filepath.Some? {
      printed := printed + [Text(SavedPrefix + filepath.value)];
      return RunResult(printed, requests, filepath, 0);
    } else {
      printed := printed + [Text(SaveFailed)];
      return RunResult(printed, requests, None, 1);
    }
  }

  /** `main` after argument parsing: build the client from the arguments and
      take one of the two branches. */
  method Run(args: Args, currenciesReply: Transport, rateReply: Transport, write: WriteOutcome) returns (r: RunResult)
    ensures r.exitCode == 0 || r.exitCode == 1
    ensures args.listCurrencies ==> ListingRun(ClientFor(args), currenciesReply, r)
    ensures !args.listCurrencies ==> RateRun(ClientFor(args), args, rateReply, write, r)
  {
    var client := CurrencyExchangeClient(args.url, args.key);
    if args.listCurrencies {
      r := ListCurrencies(client, currenciesReply);
    } else {
      r := FetchAndSave(client, args, rateReply, write);
    }
  }
}
