/** What follows for whole runs of `main` from the contracts of its two
    branches, including the two scenarios of a rate query and a currency
    listing against a service that answers normally. */
module CliProperties {
  import opened Wrappers
  import opened Dates
  import opened DateSpellings
  import opened AsciiCase
  import opened JsonValues
  import opened Client
  import opened ClientProperties
  import opened Cli

  /** An invalid date, an unusable reply or a failed write each end the run
      with exit code 1 and no saved path. */
  lemma RateFailuresExitOne(client: CurrencyExchangeClient, args: Args, reply: Transport, write: WriteOutcome, r: RunResult)
    requires RateRun(client, args, reply, write, r)
    requires !ValidateDate(args.date) || !Usable(reply) || !write.Written?
    ensures r.exitCode == 1 && r.saved.None?
  {
  }

  /** In particular a reply whose `error` is a non-empty string, wherever
      the key stands in the dict. */
  lemma ServiceErrorExitsOne(client: CurrencyExchangeClient, args: Args, status: int, body: Json, message: string,
                             write: WriteOutcome, r: RunResult)
    requires RateRun(client, args, Reply(status, Some(body)), write, r)
    requires body.JObj? && Lookup(body, "error") == Some(JStr(message)) && message != ""
    ensures r.exitCode == 1 && r.saved.None?
  {
    assert ReportsError(body);
    RateFailuresExitOne(client, args, Reply(status, Some(body)), write, r);
  }

  /** When a result comes back, the banner is printed exactly when it has
      `data`, and first; a saved path is reported on the last line, and so
      is a failed write. */
  lemma RateRunOutputShape(client: CurrencyExchangeClient, args: Args, reply: Transport, write: WriteOutcome, r: RunResult)
    requires RateRun(client, args, reply, write, r)
    requires client.GetExchangeRate(args.fromCurrency, args.toCurrency, args.date, reply).result.Some?
    ensures var result := client.GetExchangeRate(args.fromCurrency, args.toCurrency, args.date, reply).result.value;
            && |r.printed| > 0
            && (r.printed[0] == Text(BannerTop) <==> HasKey(result, "data"))
            && (HasKey(result, "data") ==> PrintBanner(Lookup(result, "data").value).lines <= r.printed)
            && (r.saved.Some? ==> r.printed[|r.printed| - 1] == Text(SavedPrefix + r.saved.value))
            && (BannerSafe(result) && !write.Written? ==> r.printed[|r.printed| - 1] == Text(SaveFailed))
  {
    var result := client.GetExchangeRate(args.fromCurrency, args.toCurrency, args.date, reply).result.value;
    var path := SavePath(Upper(args.fromCurrency), Upper(args.toCurrency), args.date);
    assert BannerTop[0] == '\n';
    assert (SavedPrefix + path)[0] == CheckMark;
    assert SaveFailed[0] == CrossMark;
    if HasKey(result, "data") {
      var banner := PrintBanner(Lookup(result, "data").value);
      assert banner.lines[0] == Text(BannerTop);
    }
  }

  /** Two rate runs whose codes differ only in letter case send the same
      request, write the same file and exit with the same code. */
  lemma RateRunIgnoresCase(args1: Args, args2: Args, reply: Transport, write: WriteOutcome, r1: RunResult, r2: RunResult)
    requires args1.url == args2.url && args1.key == args2.key && args1.date == args2.date
    requires EqualIgnoringCase(args1.fromCurrency, args2.fromCurrency)
    requires EqualIgnoringCase(args1.toCurrency, args2.toCurrency)
    requires RateRun(ClientFor(args1), args1, reply, write, r1)
    requires RateRun(ClientFor(args2), args2, reply, write, r2)
    ensures r1.requests == r2.requests && r1.saved == r2.saved && r1.exitCode == r2.exitCode
    ensures r1.printed == r2.printed
  {
    RateRequestIgnoresCase(ClientFor(args1), args1.fromCurrency, args1.toCurrency,
                           args2.fromCurrency, args2.toCurrency, args1.date);
    MainSavePathIgnoresCase(args1.fromCurrency, args1.toCurrency, args2.fromCurrency, args2.toCurrency, args1.date);
  }

  // ---------------------------------------------------------------------
  // A rate query: USD EUR 2025-01-15

  const RateData := JObj([("from", JStr("USD")), ("to", JStr("EUR")), ("rate", JFloat(0.92)), ("date", JStr("2025-01-15"))])
  const RateBody := JObj([("error", JNull), ("data", RateData)])

  const RateArgs := Args("usd", "eur", "2025-01-15", DefaultUrl, DefaultKey, false)

  lemma RateScenarioReply()
    ensures Usable(Reply(200, Some(RateBody)))
    ensures Lookup(RateBody, "data") == Some(RateData)
  {
    assert Lookup(RateBody, "error") == Some(JNull);
    assert "error" != "data";
    assert RateBody.fields[1..] == [("data", RateData)];
    assert Get(RateBody.fields, "data") == Get([("data", RateData)], "data");
  }

  lemma RateScenarioBanner()
    ensures BannerCompletes(RateData)
    ensures PrintBanner(RateData).lines[3] == Text("From:     USD")
    ensures PrintBanner(RateData).lines[5] == Fixed6("Rate:     ", JFloat(0.92))
  {
    RateDataFields();
    assert Show("From:     ", JStr("USD")) == Text("From:     USD");
  }

  lemma RateDataFields()
    ensures Lookup(RateData, "from") == Some(JStr("USD"))
    ensures Lookup(RateData, "to") == Some(JStr("EUR"))
    ensures Lookup(RateData, "rate") == Some(JFloat(0.92))
    ensures Lookup(RateData, "date") == Some(JStr("2025-01-15"))
  {
    var fs := RateData.fields;
    assert "from" != "to" && "from" != "rate" && "to" != "rate" && "from" != "date" && "to" != "date" && "rate" != "date";
    assert fs[1..] == [("to", JStr("EUR")), ("rate", JFloat(0.92)), ("date", JStr("2025-01-15"))];
    assert fs[1..][1..] == [("rate", JFloat(0.92)), ("date", JStr("2025-01-15"))];
    assert fs[1..][1..][1..] == [("date", JStr("2025-01-15"))];
  }

  lemma RateScenarioRequest()
    ensures ClientFor(RateArgs).RateRequest(RateArgs.fromCurrency, RateArgs.toCurrency, RateArgs.date)
            == Request("http://localhost:8080/",
                       [("from", "USD"), ("to", "EUR"), ("date", "2025-01-15")],
                       [("key", "EXAMPLE_API_KEY")])
  {
    RateScenarioArgs();
    assert DefaultUrl + "/" == "http://localhost:8080/";
  }

  lemma RateScenarioPath()
    ensures SavePath("USD", "EUR", "2025-01-15") == "data/exchange_rate_USD_EUR_2025-01-15.json"
  {
  }

  lemma RateScenarioArgs()
    ensures ValidateDate(RateArgs.date)
    ensures Upper(RateArgs.fromCurrency) == "USD" && Upper(RateArgs.toCurrency) == "EUR"
  {
    ValidateFormat(Date(2025, 1, 15));
    assert Format(Date(2025, 1, 15)) == "2025-01-15";
    UpperUnique("usd", "USD");
    UpperUnique("eur", "EUR");
  }

  /** Lower-case codes on the command line, a service that answers with a
      rate: the banner shows it, the file is named by the upper-cased codes,
      and the run exits 0. */
  lemma RateScenario(r: RunResult)
    requires RateRun(ClientFor(RateArgs), RateArgs, Reply(200, Some(RateBody)), Written, r)
    ensures r.exitCode == 0
    ensures r.saved == Some("data/exchange_rate_USD_EUR_2025-01-15.json")
    ensures r.requests == [Request("http://localhost:8080/",
                                   [("from", "USD"), ("to", "EUR"), ("date", "2025-01-15")],
                                   [("key", "EXAMPLE_API_KEY")])]
    ensures |r.printed| > 5 && r.printed[3] == Text("From:     USD") && r.printed[5] == Fixed6("Rate:     ", JFloat(0.92))
  {
    RateScenarioReply();
    RateScenarioBanner();
    RateScenarioArgs();
    RateScenarioPath();
    RateScenarioRequest();
    var banner := PrintBanner(RateData);
    assert banner.lines <= r.printed;
  }

  // ---------------------------------------------------------------------
  // A listing: --list-currencies

  const ListBody := JObj([("error", JNull), ("data", JArr([JStr("USD"), JStr("EUR"), JStr("MDL")]))])

  lemma ListingScenario(client: CurrencyExchangeClient, r: RunResult)
    requires ListingRun(client, Reply(200, Some(ListBody)), r)
    ensures r.exitCode == 0
    ensures r.printed == [Text("Available currencies:"), Text("  - USD"), Text("  - EUR"), Text("  - MDL")]
  {
    assert Lookup(ListBody, "error") == Some(JNull);
    assert "error" != "data";
    assert ListBody.fields[1..] == [("data", JArr([JStr("USD"), JStr("EUR"), JStr("MDL")]))];
    var items := [JStr("USD"), JStr("EUR"), JStr("MDL")];
    assert Lookup(ListBody, "data") == Some(JArr(items));
    var lines := ListingLines(items);
    assert lines[0] == Text("  - USD") && lines[1] == Text("  - EUR") && lines[2] == Text("  - MDL");
    assert lines == [Text("  - USD"), Text("  - EUR"), Text("  - MDL")];
  }

  /** An empty list, or a reply without `data`, prints nothing and exits 1. */
  lemma EmptyListingExitsOne(client: CurrencyExchangeClient, status: int, body: Json, r: RunResult)
    requires !RaisesForStatus(status)
    requires body.JObj? && !ReportsError(body)
    requires Lookup(body, "data").None? || Lookup(body, "data") == Some(JArr([]))
    requires ListingRun(client, Reply(status, Some(body)), r)
    ensures r.exitCode == 1 && r.printed == []
  {
    assert Usable(Reply(status, Some(body)));
  }

  // ---------------------------------------------------------------------
  // A rate too large for a double

  lemma {:induction false} Pow2Grows(a: nat, b: nat)
    requires a < b
    ensures Pow2(a) < Pow2(b)
  {
    if a + 1 < b {
      Pow2Grows(a, b - 1);
    }
  }

  /** Every `int` below 2^1023 formats with `:.6f`; 2^1024 raises. */
  lemma FixedFormatLimit(n: int)
    ensures -Pow2(1023) < n < Pow2(1023) ==> FormatsAsFixed(JInt(n))
    ensures !FormatsAsFixed(JInt(Pow2(1024))) && !FormatsAsFixed(JInt(-Pow2(1024)))
  {
    Pow2Grows(970, 1023);
    assert Pow2(1024) == 2 * Pow2(1023);
  }
}
