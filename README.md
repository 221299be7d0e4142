# Currency exchange rate client — verified model of its decision layer

The client (`IW02/currency_exchange_rate.py`, with a byte-identical copy at
`lab02/currency_exchange_rate.py`; every line number below holds for both)
asks an exchange-rate service for one rate between two currencies on one
date, prints it, and saves the service's answer as a JSON file under `data/`.
It can also list the currencies the service knows.  Around the HTTP and file
plumbing sits a small decision layer, and that is what this project models and
proves things about:

- **Date validation** (`validate_date`): `strptime(s, '%Y-%m-%d')` followed by
  the inclusive window 2025-01-01 .. 2025-09-15.  The parser is modelled on
  the regular expressions CPython's `strptime` uses for `%Y`, `%m` and `%d`,
  tried in the same order, with the same "unconverted data remains" check and
  the same `datetime` range checks (year 1..9999, day within the month,
  Gregorian leap years).  It is proved to accept exactly the spellings of
  real calendar dates (`DateSpellings.ParseDateIff`), and `validate_date` to
  accept exactly the spellings of dates in the window.  The field-by-field
  date comparison is proved to be chronological order on day numbers
  (`DateOrder.NotAfterIsChronological`).
- **Requests and file names**: the query parameters `from` and `to`
  upper-cased, `date` passed through, the API key as form field `key`; the
  path `data/exchange_rate_{FROM}_{TO}_{DATE}.json`.  Codes that differ only in
  letter case give the same request and the same file, and only they do; the
  path can be read back into its parts when the codes contain no `_`.
- **Reply decisions**: the network is an input, a `Transport` value (connection
  error, timeout, other request error, other exception, or a reply with an
  HTTP status and a parsed body or none).  Every failure becomes the failure
  marker `None`; a dict whose `error` is truthy becomes `None`; any other dict
  is returned unmodified.  The currency call returns the dict's `data`, or `[]`
  when it has none; a `data` of `null` comes back as the JSON value `JNull`,
  where Python returns `None`, and `main` treats both as falsy.
- **The command layer** (`main`): which requests are sent, what is printed
  (one `Output` per `print` call: every line a run writes with `print`;
  the log records echoed to the same standard output are left out), which path
  `save_to_file` returned, and the exit code.  The listing loop is a `while`
  loop proved to print one `  - {c}` line per item in order.

The client object is a Dafny datatype (`Client.CurrencyExchangeClient`): its
constructor sets `base_url` and `api_key` once and no method assigns them
again, so the object is a value; the rest of what the constructor does
(logging set-up, creating `data/`) is input/output and is left out.

Where the program's own text and its behaviour differ, the model follows the
behaviour:

- The docstring of `validate_date` (line 56) and the `--help` text of the
  `date` argument (line 209) ask for `YYYY-MM-DD`.  `strptime` also takes a
  one-digit month or day (`2025-1-5`) and a day written as a space and one
  digit (`2025-01- 5`); `DateSpellings.LenientSpellingsAccepted` records this.
- `--list-currencies` does not use the three positional arguments, but
  `argparse` as configured at lines 207-209 still requires them.  The model
  takes the parsed arguments as given, so every `Cli.Args` has them.
- The client's methods catch every exception, but `main` itself reads
  `rate_data['from']`, `['to']`, `['rate']` (formatted with `:.6f`) and
  `['date']` outside any `try` (lines 237-244): a result whose `data` lacks
  one of these keys, is not a dict, or has a rate that is not a number or is
  an integer too large for a double, raises there, so the process exits with
  code 1 after printing part of the banner and saves nothing
  (`Cli.BannerSafe`, `Cli.PrintBanner`).
- `get_available_currencies` returns `data` whatever its JSON type, and `main`
  iterates it: a string prints one line per character, a dict one line per
  key, and a truthy number or `true` raises `TypeError` after the heading.
- `save_to_file` opens the file for writing (line 154) before `json.dump`
  runs, so a write that fails part-way leaves a created or truncated file
  behind even though no path is returned.

## Model

| member | source | states |
|---|---|---|
| `Dates.DaysInMonth` | IW02/currency_exchange_rate.py:62 | a month has 28 to 31 days; 29 exactly for February of a Gregorian leap year, 28 for February otherwise |
| `Dates.MatchYear` | IW02/currency_exchange_rate.py:62 | `%Y` consumes exactly four digits and yields a number 0..9999 |
| `Dates.MatchMonth` | IW02/currency_exchange_rate.py:62 | `%m` consumes one or two characters and yields a month 1..12 |
| `Dates.MatchDay` | IW02/currency_exchange_rate.py:62 | `%d` consumes one or two characters and yields a day 1..31 |
| `Dates.ParseDate` | IW02/currency_exchange_rate.py:62 | whatever parses is a valid calendar date and came from a string of 8 to 10 characters |
| `DateSpellings.ParseDateComplete` | IW02/currency_exchange_rate.py:62 | every spelling of every valid date (four-digit year, month and day with or without leading zero, day also space-padded) parses to that date |
| `DateSpellings.ParseDateSound` | IW02/currency_exchange_rate.py:61-72 | what parses is a valid date and the string is one of its spellings; anything else is a `ValueError`, i.e. `None` |
| `DateSpellings.ParseDateIff` | IW02/currency_exchange_rate.py:61-72 | `ParseDate(s) == Some(d)` exactly when `d` is a valid date and `s` spells it |
| `DateSpellings.ParseFormat` | IW02/currency_exchange_rate.py:62 | the canonical `YYYY-MM-DD` text of a valid date parses back to it |
| `Dates.IsValidDate` | IW02/currency_exchange_rate.py:62 | the `datetime` constructor's checks: year 1..9999, month 1..12, day within the month |
| `Dates.NotAfter` | IW02/currency_exchange_rate.py:66 | `datetime` values compare by year, then month, then day (its order is `DateOrder.NotAfterIsChronological`) |
| `Dates.InWindow` | IW02/currency_exchange_rate.py:63-66 | `min_date <= date_obj <= max_date` with the bounds 2025-01-01 and 2025-09-15 |
| `Dates.ValidateDate` | IW02/currency_exchange_rate.py:61-72 | true exactly when the string parses and the date is in 2025 and no later than 15 September |
| `DateSpellings.InWindowIff` | IW02/currency_exchange_rate.py:63-66 | the comparison against 2025-01-01 and 2025-09-15 holds exactly for 2025 dates up to 15 September |
| `DateSpellings.ValidateDateIff` | IW02/currency_exchange_rate.py:61-72 | `validate_date(s)` is true exactly when `s` spells a real calendar date inside the inclusive window |
| `DateSpellings.ValidateFormat` | IW02/currency_exchange_rate.py:61-69 | the canonical text of a valid date is accepted exactly inside the window |
| `DateSpellings.WindowEdges` | IW02/currency_exchange_rate.py:63-69 | 2025-01-01 and 2025-09-15 are accepted; 2024-12-31 and 2025-09-16 are rejected |
| `DateSpellings.NonDatesRejected` | IW02/currency_exchange_rate.py:62-72 | month 13, 29 February 2025, 31 April, `15-01-2025`, trailing text, a leading space and the empty string are rejected |
| `DateSpellings.LenientSpellingsAccepted` | IW02/currency_exchange_rate.py:62 | one-digit months and days and a space-padded day are accepted |
| `DateOrder.NotAfterIsChronological` | IW02/currency_exchange_rate.py:66 | the field-by-field date comparison agrees with comparing day numbers |
| `DateOrder.OrdinalInjective` | IW02/currency_exchange_rate.py:66 | distinct valid dates have distinct day numbers |
| `DateOrder.NextYear` | IW02/currency_exchange_rate.py:66 | the day count before a year grows by that year's length (365 or 366) |
| `AsciiCase.Upper` | IW02/currency_exchange_rate.py:93-94 | `upper()` returns a string equal to its input up to case with no lower-case letter left |
| `AsciiCase.UpperUnique` | IW02/currency_exchange_rate.py:93-94 | that description determines the result |
| `AsciiCase.UpperKeepsUpperCase` | IW02/currency_exchange_rate.py:93-94 | a code typed without lower-case letters is sent exactly as typed, and only such a code is |
| `AsciiCase.UpperEqualIff` | IW02/currency_exchange_rate.py:93-94 | two strings upper-case to the same string exactly when they differ only in letter case |
| `JsonValues.Truthy` | IW02/currency_exchange_rate.py:109 | Python's truthiness: `None`, `False`, zero and empty strings, lists and dicts are false (used again at lines 183, 222 and 226) |
| `JsonValues.Get` | IW02/currency_exchange_rate.py:109 | `dict.get` finds the first entry with the key, or `None` exactly when no entry has it |
| `JsonValues.Iterate` | IW02/currency_exchange_rate.py:224-225 | `for` visits a list's items, a string's one-character strings and a dict's keys in order; lists, strings and dicts are iterable and nothing else; an iterable is truthy exactly when it visits something |
| `Client.ReportsError` | IW02/currency_exchange_rate.py:109 | `result.get('error')` is truthy |
| `Client.Usable` | IW02/currency_exchange_rate.py:103-113 | the reply gets past `raise_for_status`, `response.json()` and the `error` check: a dict without a truthy `error` (the same checks at lines 179-185) |
| `Client.ReadReply` | IW02/currency_exchange_rate.py:101-133 | connection errors, timeouts, other request errors, other exceptions, HTTP 4xx/5xx, malformed JSON, a non-dict body and a truthy `error` all give `None`; any other reply's dict is returned unmodified |
| `Client.CurrencyExchangeClient.RateRequest` | IW02/currency_exchange_rate.py:91-99 | the request goes to `{base_url}/` with query `from`=upper(from), `to`=upper(to), `date` unchanged, and form field `key` |
| `Client.CurrencyExchangeClient.GetExchangeRate` | IW02/currency_exchange_rate.py:86-114 | an invalid date returns `None` with no request sent; otherwise the rate request is sent, and a result comes back exactly when the reply is usable, and then it is the reply's dict unmodified |
| `Client.CurrencyExchangeClient.CurrenciesRequest` | IW02/currency_exchange_rate.py:174-176 | the listing request: query `currencies=''` and form field `key` |
| `ClientProperties.CurrenciesRequestIsNoRateRequest` | IW02/currency_exchange_rate.py:91-99 | the listing request goes to the same endpoint with the same `key` form field as a rate request, but its query never equals a rate request's |
| `Client.CurrencyExchangeClient.GetAvailableCurrencies` | IW02/currency_exchange_rate.py:178-191 | `None` exactly for an unusable reply; otherwise the dict's `data`, or `[]` when it has none (a `data` of `null` is returned as `JNull`, where Python returns `None`; `main` treats both as falsy) |
| `Client.CurrencyExchangeClient.SaveToFile` | IW02/currency_exchange_rate.py:148-165 | the path is returned exactly when the write succeeded, and it is `data/exchange_rate_{from}_{to}_{date}.json` |
| `Client.FileName` | IW02/currency_exchange_rate.py:150 | `exchange_rate_{from}_{to}_{date}.json` |
| `Client.SavePath` | IW02/currency_exchange_rate.py:151 | `os.path.join('data', filename)`: the directory, `/` and the file name (read back by `ClientProperties.SplitSavePath`) |
| `ClientProperties.RateRequestIgnoresCase` | IW02/currency_exchange_rate.py:92-96 | two requests are equal exactly when their codes differ only in letter case |
| `ClientProperties.RateRequestKeepsDate` | IW02/currency_exchange_rate.py:95 | the date parameter is the date string as given |
| `ClientProperties.IndexOf` | IW02/currency_exchange_rate.py:150 | finds the first occurrence of a character, or none exactly when it is absent |
| `ClientProperties.SplitSavePath` | IW02/currency_exchange_rate.py:150-151 | whatever it splits a string into are two codes without `_` and a date that rebuild exactly that path |
| `ClientProperties.SplitSavePathRoundTrip` | IW02/currency_exchange_rate.py:150-151 | a path built from codes without `_` is read back into its two codes and its date |
| `ClientProperties.SavePathInjective` | IW02/currency_exchange_rate.py:150-151 | codes without `_` never share a file unless codes and date all agree |
| `ClientProperties.SavePathCollision` | IW02/currency_exchange_rate.py:150 | with `_` inside a code, two different requests name the same file, so one overwrites the other |
| `ClientProperties.MainSavePathIgnoresCase` | IW02/currency_exchange_rate.py:248 | the file `main` saves to does not depend on the case the codes are typed in |
| `Cli.Rule` | IW02/currency_exchange_rate.py:238 | `'='*n` is n equals signs |
| `Cli.Show` | IW02/currency_exchange_rate.py:225 | an f-string field: a string is inserted as it is, any other value stays abstract |
| `Cli.ListingLines` | IW02/currency_exchange_rate.py:224-225 | one `  - {c}` line per item, in order |
| `Cli.PrintBanner` | IW02/currency_exchange_rate.py:236-245 | the banner always starts with its three heading lines; it completes, with From, To, Rate and Date lines and the closing rule, exactly when all four fields can be read and the rate formatted (a float, a bool, or an int of magnitude below 2^1024 - 2^970); otherwise it stops at the field that raised |
| `CliProperties.FixedFormatLimit` | IW02/currency_exchange_rate.py:243 | every integer rate below 2^1023 in magnitude formats with `:.6f`, and 2^1024 (either sign) raises `OverflowError` |
| `Cli.ListCurrencies` | IW02/currency_exchange_rate.py:220-226 | listing mode sends the listing request, saves nothing and exits 0 exactly for a non-empty iterable; the lines it writes with `print` are the heading and one line per item for a truthy iterable, the heading alone for a truthy value that raises `TypeError` in the loop, and nothing for a failure or a falsy value |
| `Cli.FetchAndSave` | IW02/currency_exchange_rate.py:229-255 | no request for an invalid date; a failure marker prints exactly one line and exits 1; otherwise the lines written by `print` are the banner (when the result has `data`) followed, unless the banner raised, by the saved-path line or the save-failed line; exit 0 exactly when a result came back, its banner did not raise and the write succeeded, and then the path is named by the upper-cased codes |
| `CliProperties.RateRunOutputShape` | IW02/currency_exchange_rate.py:236-255 | when a result comes back, the first line written by `print` is the banner's exactly when the result has `data`, and the last line reports the saved path or the failed write |
| `Cli.Run` | IW02/currency_exchange_rate.py:217-255 | builds the client from the arguments and takes the listing or the rate branch, with those branches' guarantees; the exit code is 0 or 1 |
| `CliProperties.RateFailuresExitOne` | IW02/currency_exchange_rate.py:229-255 | an invalid date, an unusable reply or a failed write each exit 1 with no saved path |
| `CliProperties.ServiceErrorExitsOne` | IW02/currency_exchange_rate.py:109-111 | a reply whose `error` is a non-empty string, wherever it stands in the dict, exits 1 with no saved path |
| `CliProperties.RateRunIgnoresCase` | IW02/currency_exchange_rate.py:248 | runs whose codes differ only in case send the same request, print the same lines, save under the same path and exit alike |
| `CliProperties.RateScenario` | IW02/currency_exchange_rate.py:229-255 | `usd eur 2025-01-15` against a normal reply shows the banner, saves `data/exchange_rate_USD_EUR_2025-01-15.json` and exits 0 |
| `CliProperties.ListingScenario` | IW02/currency_exchange_rate.py:220-226 | a reply listing USD, EUR and MDL prints the heading and `  - USD`, `  - EUR`, `  - MDL`, and exits 0 |
| `CliProperties.EmptyListingExitsOne` | IW02/currency_exchange_rate.py:183-187 | a usable dict (such as `{"error": null, "data": []}`) whose `data` is an empty list or absent writes nothing with `print` and exits 1 |

## Left out

- Network input/output: `requests.post`, its 10-second timeout and `raise_for_status` are replaced by the `Transport` input; only the status range that raises (400..599) is modelled.
- JSON decoding and encoding: `response.json()` is the parsed body inside `Transport.Reply`, and `json.dump(..., indent=2, ensure_ascii=False)` is not modelled, so neither is the round trip from saved file back to the response.
- Client.CurrencyExchangeClient.SaveToFile: states only the path and whether the write succeeded, not the file's contents, because serialisation and the file system are outside the model; in particular a write that fails after `open` has created or truncated the file is not modelled as leaving that file behind.
- CliProperties.RateFailuresExitOne: concludes that no path is returned, not that no file exists: a failed write (a full disk, or a string the encoder rejects) may already have created or truncated the file, and the model has no file system to show it.
- The file system: `os.makedirs('data')` in the constructor, `open` and the write are an abstract `WriteOutcome`; a failure while creating the directory (which would end the process before anything else) is not modelled.
- Logging: the log file and every log message, including which `except` branch a failure's message comes from.  The `StreamHandler(sys.stdout)` installed at line 40 writes each record at level INFO and above to the same standard output as the `print` calls, interleaved with them (for instance the INFO lines of lines 102, 113 and 157 around the banner, the ERROR line of line 190 in a failed listing, and "Created 'data' directory" on a first run); the model's `printed` holds only the `print` lines.
- `argparse`: the parsed arguments are the `Cli.Args` input; usage errors and `--help` are not modelled.
- The banner's text: fields that are not strings and the `:.6f` rate appear as `Shown` and `Fixed6` outputs rather than as characters, because Python's `str()` of non-strings and float formatting are outside the model.
- Python's `\d` also matches non-ASCII decimal digits; the model's date parser accepts ASCII digits only.
- AsciiCase.Upper: upper-cases the ASCII letters only; Python's `str.upper()` also maps other scripts' letters, some to several characters.
- Floating point: JSON numbers with a fraction or an exponent are `real`s, so NaN and the infinities that Python's JSON decoder accepts are not represented.
- JSON objects are ordered lists of pairs; the merging of duplicate keys by the decoder is not modelled.
- What an uncaught exception writes to standard error; the model records only the exit code 1 and the output printed before it.
- Cli.FetchAndSave: assumes every `print` and the flush of standard output at exit succeed.  They can fail: a standard output whose encoding cannot represent `✓` raises `UnicodeEncodeError` at line 251 after the file was saved, so the run exits 1 with the file written where the model says exit 0; a reader that closes the pipe early makes the final flush fail, and Python then exits with status 120, outside the model's 0 or 1.
- Cli.Run: its exit code of 0 or 1 assumes the final flush succeeds; with a closed pipe Python exits with status 120.
- Cli.ListCurrencies: assumes the same of printing; a currency the console cannot encode raises after the heading, so the run exits 1 where the model says 0, and a closed pipe again gives status 120.
- Strings are sequences of Unicode scalar values: the lone surrogates that a JSON `\ud800` escape can put into a Python `str` are not represented, and printing one raises `UnicodeEncodeError` even on a UTF-8 standard output.
- The Windows path separator of `os.path.join`; paths use `/`.
