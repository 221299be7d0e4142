/** Properties of the requests and paths the client builds. */
module ClientProperties {
  import opened Wrappers
  import opened AsciiCase
  import opened Client

  /** Codes that differ only in letter case give the same request, and only
      they do. */
  lemma RateRequestIgnoresCase(c: CurrencyExchangeClient, f1: string, t1: string, f2: string, t2: string, date: string)
    ensures c.RateRequest(f1, t1, date) == c.RateRequest(f2, t2, date)
            <==> EqualIgnoringCase(f1, f2) && EqualIgnoringCase(t1, t2)
  {
    UpperEqualIff(f1, f2);
    UpperEqualIff(t1, t2);
    if c.RateRequest(f1, t1, date) == c.RateRequest(f2, t2, date) {
      assert c.RateRequest(f1, t1, date).query[0].1 == Upper(f1);
      assert c.RateRequest(f2, t2, date).query[0].1 == Upper(f2);
      assert c.RateRequest(f1, t1, date).query[1].1 == Upper(t1);
      assert c.RateRequest(f2, t2, date).query[1].1 == Upper(t2);
    }
  }

  /** The date reaches the request exactly as given. */
  lemma RateRequestKeepsDate(c: CurrencyExchangeClient, f: string, t: string, date: string)
    ensures c.RateRequest(f, t, date).query[2] == ("date", date)
  {
  }

  /** The listing request and a rate request never coincide: the listing
      sends only `currencies`, a rate request `from`, `to` and `date`, so
      the service can tell them apart by their query alone. */
  lemma CurrenciesRequestIsNoRateRequest(c: CurrencyExchangeClient, f: string, t: string, date: string)
    ensures c.CurrenciesRequest().query != c.RateRequest(f, t, date).query
    ensures c.CurrenciesRequest().url == c.RateRequest(f, t, date).url
    ensures c.CurrenciesRequest().form == c.RateRequest(f, t, date).form == [("key", c.apiKey)]
  {
    assert |c.CurrenciesRequest().query| == 1 != |c.RateRequest(f, t, date).query|;
  }

  // ---------------------------------------------------------------------
  // Reading a save path back

  const PathPrefix := "data/exchange_rate_"
  const PathSuffix := ".json"

  function IndexOf(s: string, c: char): (r: Option<nat>)
    ensures r.None? <==> c !in s
    ensures r.Some? ==> r.value < |s| && s[r.value] == c && c !in s[..r.value]
  {
    if s == [] then None
    else if s[0] == c then Some(0)
    else
      match IndexOf(s[1..], c)
      case None => None
      case Some(i) =>
        assert s[..i + 1] == [s[0]] + s[1..][..i];
        Some(i + 1)
  }

  /** The codes and the date a save path was built from, when neither code
      contains `_`. */
  function SplitSavePath(p: string): (r: Option<(string, string, string)>)
    ensures r.Some? ==> '_' !in r.value.0 && '_' !in r.value.1
    ensures r.Some? ==> SavePath(r.value.0, r.value.1, r.value.2) == p
  {
    if |p| < |PathPrefix| + |PathSuffix| || p[..|PathPrefix|] != PathPrefix || p[|p| - |PathSuffix|..] != PathSuffix then None
    else
      var middle := p[|PathPrefix|..|p| - |PathSuffix|];
      match IndexOf(middle, '_')
      case None => None
      case Some(i) =>
        var rest := middle[i + 1..];
        match IndexOf(rest, '_')
        case None => None
        case Some(j) =>
          Unaffix(p, PathPrefix, PathSuffix);
          RebuildPath(p, middle, i, rest, j);
          Some((middle[..i], rest[..j], rest[j + 1..]))
  }

  lemma RebuildPath(p: string, middle: string, i: nat, rest: string, j: nat)
    requires p == PathPrefix + middle + PathSuffix
    requires i < |middle| && middle[i] == '_' && rest == middle[i + 1..]
    requires j < |rest| && rest[j] == '_'
    ensures SavePath(middle[..i], rest[..j], rest[j + 1..]) == p
  {
    var f, t, date := middle[..i], rest[..j], rest[j + 1..];
    CutAt(rest, j);
    CutAt(middle, i);
    assert middle == f + "_" + t + "_" + date;
    SavePathShape(f, t, date);
  }

  lemma CutAt(s: string, k: nat)
    requires k < |s|
    ensures s == s[..k] + [s[k]] + s[k + 1..]
  {
  }

  lemma Unaffix(p: string, a: string, z: string)
    requires |p| >= |a| + |z| && p[..|a|] == a && p[|p| - |z|..] == z
    ensures p == a + p[|a|..|p| - |z|] + z
  {
    assert p == p[..|a|] + p[|a|..|p| - |z|] + p[|p| - |z|..];
  }

  lemma IndexOfFirst(a: string, b: string, c: char)
    requires c !in a
    ensures IndexOf(a + [c] + b, c) == Some(|a|)
  {
    var s := a + [c] + b;
    var r := IndexOf(s, c);
    assert s[|a|] == c;
    assert s[..|a|] == a;
  }

  lemma SavePathShape(f: string, t: string, date: string)
    ensures SavePath(f, t, date) == PathPrefix + (f + "_" + t + "_" + date) + PathSuffix
  {
  }

  lemma StripAffixes(a: string, m: string, z: string)
    ensures |a + m + z| >= |a| + |z|
    ensures (a + m + z)[..|a|] == a
    ensures (a + m + z)[|a + m + z| - |z|..] == z
    ensures (a + m + z)[|a|..|a + m + z| - |z|] == m
  {
  }

  lemma SplitMiddle(f: string, t: string, date: string)
    requires '_' !in f && '_' !in t
    ensures IndexOf(f + "_" + t + "_" + date, '_') == Some(|f|)
    ensures var rest := (f + "_" + t + "_" + date)[|f| + 1..];
            rest == t + "_" + date && IndexOf(rest, '_') == Some(|t|)
            && (f + "_" + t + "_" + date)[..|f|] == f && rest[..|t|] == t && rest[|t| + 1..] == date
  {
    var middle := f + "_" + t + "_" + date;
    assert middle == f + ['_'] + (t + "_" + date);
    IndexOfFirst(f, t + "_" + date, '_');
    var rest := middle[|f| + 1..];
    assert rest == t + ['_'] + date;
    IndexOfFirst(t, date, '_');
  }

  /** A save path built from codes without `_` gives the codes and the date
      back. */
  lemma SplitSavePathRoundTrip(f: string, t: string, date: string)
    requires '_' !in f && '_' !in t
    ensures SplitSavePath(SavePath(f, t, date)) == Some((f, t, date))
  {
    SavePathShape(f, t, date);
    StripAffixes(PathPrefix, f + "_" + t + "_" + date, PathSuffix);
    SplitMiddle(f, t, date);
  }

  /** So two requests whose codes have no `_` never share a file unless they
      agree on both codes and the date. */
  lemma SavePathInjective(f1: string, t1: string, d1: string, f2: string, t2: string, d2: string)
    requires '_' !in f1 && '_' !in t1 && '_' !in f2 && '_' !in t2
    requires SavePath(f1, t1, d1) == SavePath(f2, t2, d2)
    ensures f1 == f2 && t1 == t2 && d1 == d2
  {
    SplitSavePathRoundTrip(f1, t1, d1);
    SplitSavePathRoundTrip(f2, t2, d2);
  }

  /** With a `_` inside a code, two different requests write the same file:
      the later one silently replaces the earlier. */
  lemma SavePathCollision()
    ensures SavePath("A_B", "C", "2025-01-15") == SavePath("A", "B_C", "2025-01-15")
  {
  }

  /** The path `main` saves under does not depend on the case the codes are
      typed in. */
  lemma MainSavePathIgnoresCase(f1: string, t1: string, f2: string, t2: string, date: string)
    requires EqualIgnoringCase(f1, f2) && EqualIgnoringCase(t1, t2)
    ensures SavePath(Upper(f1), Upper(t1), date) == SavePath(Upper(f2), Upper(t2), date)
  {
    UpperEqualIff(f1, f2);
    UpperEqualIff(t1, t2);
  }
}
