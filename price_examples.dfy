/**
 * Worked examples of the price parsers, each proved from the definitions,
 * and the general facts the examples are assembled from.
 */
module PriceParsingExamples {
  import opened Basics
  import opened Text
  import opened PriceParsing

  /** The first table entry whose symbol occurs is found when every earlier symbol's first character is absent. */
  lemma FirstKeyIs(table: seq<CurrencyKey>, text: string, k: nat)
    requires k < |table| && Occurs(text, table[k].symbol)
    requires forall j :: 0 <= j < k ==> |table[j].symbol| > 0 && table[j].symbol[0] !in text
    ensures FirstKey(table, text) == Some(k)
  {
    forall j | 0 <= j < k ensures !Occurs(text, table[j].symbol) {
      NotOccursWithoutFirstChar(text, table[j].symbol);
    }
  }

  /** A string of plain digits is read as its decimal value. */
  lemma {:induction false} AmountOfDigits(s: string)
    requires |s| > 0 && forall i :: 0 <= i < |s| ==> IsDigit(s[i])
    ensures AmountOf(s) == Some(DigitsValue(s) as real)
  {
    AmountOfDigitsToken(s);
    NoCommaRemove(s);
  }

  lemma AmountOfDigitsToken(s: string)
    requires |s| > 0 && forall i :: 0 <= i < |s| ==> IsDigit(s[i])
    ensures AmountToken(s) == Some(Token(s, false, ""))
  {
    assert FirstNumIndex(s) == Some(0);
    assert s[0..] == s;
    AllDigitsRun(s);
    assert s[..|s|] == s;
  }

  lemma {:induction false} AllDigitsRun(s: string)
    requires forall i :: 0 <= i < |s| ==> IsDigit(s[i])
    ensures NumRun(s) == |s|
  {
    if |s| > 0 {
      AllDigitsRun(s[1..]);
    }
  }

  lemma {:induction false} NoCommaRemove(s: string)
    requires forall i :: 0 <= i < |s| ==> IsDigit(s[i])
    ensures Remove(s, ',') == s
  {
    if |s| > 0 {
      NoCommaRemove(s[1..]);
      assert s == [s[0]] + s[1..];
    }
  }

  /** How a successful parse is assembled from its three steps. */
  lemma ParseCleanedFound(table: seq<CurrencyKey>, text: string, k: nat, v: real)
    requires k < |table|
    requires FirstKey(table, text) == Some(k)
    requires AmountOf(ReplaceAll(text, table[k].symbol)) == Some(v)
    ensures ParseCleaned(table, text) == Parsed(Some(v), table[k].code)
  {
  }

  /** A parse that finds an entry but no amount after deleting its symbol is `(None, 'TWD')`. */
  lemma ParseCleanedNoAmount(table: seq<CurrencyKey>, text: string, k: nat)
    requires k < |table|
    requires FirstKey(table, text) == Some(k)
    requires AmountOf(ReplaceAll(text, table[k].symbol)) == None
    ensures ParseCleaned(table, text) == Parsed(None, DefaultCurrency)
  {
  }

  /** A parse that finds no entry reads the amount of the whole text, in Taiwan dollars. */
  lemma ParseCleanedNoKey(table: seq<CurrencyKey>, text: string, v: real)
    requires FirstKey(table, text) == None
    requires AmountOf(text) == Some(v)
    ensures ParseCleaned(table, text) == Parsed(Some(v), DefaultCurrency)
  {
  }

  /** Text without whitespace is left alone by the `\s+` clean-up. */
  lemma NoSpaceStrip(t: string)
    requires forall i :: 0 <= i < |t| ==> !IsSpace(t[i])
    ensures StripSpaces(t) == t
  {
    RemoveWhereNone(t, IsSpace);
  }

  // ---- "NT$2,350.50": the helper reads 2350.5 Taiwan dollars ----

  lemma NtDollarFirst(t: string, table: seq<CurrencyKey>)
    requires t == "NT$2,350.50" && table == HelperTable
    ensures FirstKey(table, t) == Some(0)
  {
    assert t[..3] == table[0].symbol;
  }

  lemma NtDollarRemoved(t: string, sym: string)
    requires t == "NT$2,350.50" && sym == "NT$"
    ensures ReplaceAll(t, sym) == "2,350.50"
  {
    assert t[..3] == sym;
    var rest := t[3..];
    assert rest == "2,350.50";
    NotOccursWithoutFirstChar(rest, sym);
    ReplaceAllAbsent(rest, sym);
  }

  /** The number is the longest run of digits and commas, then the dot and the digits after it. */
  lemma TwoThreeFiftyToken(s: string)
    requires s == "2,350.50"
    ensures AmountToken(s) == Some(Token("2,350", true, "50"))
  {
    assert FirstNumIndex(s) == Some(0);
    assert s[0..] == s;
    TwoThreeFiftyRun(s);
    FiftyDigits(s[6..]);
    assert s[..5] == "2,350";
  }

  lemma TwoThreeFiftyRun(s: string)
    requires s == "2,350.50"
    ensures NumRun(s) == 5
  {
    assert NumRun(s[5..]) == 0;
    assert NumRun(s[4..]) == 1;
    assert NumRun(s[3..]) == 2;
    assert NumRun(s[2..]) == 3;
    assert NumRun(s[1..]) == 4;
  }

  lemma FiftyDigits(f: string)
    requires f == "50"
    ensures DigitRun(f) == 2 && f[..2] == "50"
  {
    assert DigitRun(f[2..]) == 0;
    assert DigitRun(f[1..]) == 1;
  }

  /** The commas are dropped and the decimals kept. */
  lemma TwoThreeFiftyAmount(s: string)
    requires s == "2,350.50"
    ensures AmountOf(s) == Some(2350.5)
  {
    TwoThreeFiftyToken(s);
    TwoThreeFiftyTokenAmount(AmountToken(s).value);
  }

  lemma TwoThreeFiftyTokenAmount(tok: Token)
    requires tok == Token("2,350", true, "50")
    ensures TokenAmount(tok) == Some(2350.5)
  {
    TwoThreeFiftyNoComma(tok.whole);
    TwoThreeFiftyDigits(Remove(tok.whole, ','));
    FiftyFraction(tok.frac);
  }

  lemma TwoThreeFiftyNoComma(w: string)
    requires w == "2,350"
    ensures Remove(w, ',') == "2350"
  {
    assert w[1..][1..] == "350";
    NoCommaRemove(w[1..][1..]);
  }

  lemma TwoThreeFiftyDigits(d: string)
    requires d == "2350"
    ensures DigitsValue(d) == 2350
  {
    assert d[..3] == "235";
    assert "235"[..2] == "23";
    assert "23"[..1] == "2";
    assert "2"[..0] == "";
  }

  lemma FiftyFraction(f: string)
    requires f == "50"
    ensures FractionValue(f) == 0.5
  {
    assert f[1..] == "0";
    assert "0"[1..] == "";
  }

  /** "NT$" is scanned before "$", so the text means Taiwan dollars, and the thousands comma is dropped. */
  lemma NtDollarIsTaiwanDollar(t: string)
    requires t == "NT$2,350.50"
    ensures ParsePriceText(t) == Parsed(Some(2350.5), "TWD")
  {
    NoSpaceStrip(t);
    HelperCleanupRedundant(t);
    NtDollarCleaned(t, HelperTable);
  }

  lemma NtDollarCleaned(t: string, table: seq<CurrencyKey>)
    requires t == "NT$2,350.50" && table == HelperTable
    ensures ParseCleaned(table, t) == Parsed(Some(2350.5), "TWD")
  {
    var sym := table[0].symbol;
    NtDollarFirst(t, table);
    NtDollarRemoved(t, sym);
    TwoThreeFiftyAmount(ReplaceAll(t, sym));
    ParseCleanedFound(table, t, 0, 2350.5);
  }

  // ---- "100美元": the helper knows the Chinese name, the scrapers do not ----

  lemma UsDollarNameOccurs(t: string, sym: string)
    requires t == "100美元" && sym == "美元"
    ensures Occurs(t, sym)
  {
    assert StartsWith(t[3..], sym);
    assert t[2..][1..] == t[3..];
    assert t[1..][1..] == t[2..];
    assert Occurs(t[2..], sym);
    assert Occurs(t[1..], sym);
  }

  lemma UsDollarNameFirst(t: string, table: seq<CurrencyKey>)
    requires t == "100美元" && table == HelperTable
    ensures FirstKey(table, t) == Some(5)
  {
    UsDollarNameOccurs(t, table[5].symbol);
    FirstKeyIs(table, t, 5);
  }

  lemma UsDollarNameRemoved(t: string, sym: string)
    requires t == "100美元" && sym == "美元"
    ensures ReplaceAll(t, sym) == "100"
  {
    var t1 := t[1..];
    var t2 := t1[1..];
    var t3 := t2[1..];
    assert t3 == sym && t3[2..] == "";
    assert ReplaceAll(t3, sym) == "";
    assert !StartsWith(t2, sym) && t2[0] == '0';
    assert ReplaceAll(t2, sym) == "0";
    assert !StartsWith(t1, sym) && t1[0] == '0';
    assert ReplaceAll(t1, sym) == "00";
    assert !StartsWith(t, sym) && t[0] == '1';
  }

  lemma HundredAmount(s: string)
    requires s == "100"
    ensures AmountOf(s) == Some(100.0)
  {
    AmountOfDigits(s);
    assert s[..2] == "10";
    assert "10"[..1] == "1";
    assert "1"[..0] == "";
  }

  /**
   * "美元" (US dollar) is met before "元" (yuan) in the helper's table, so
   * the text means US dollars although the yuan sign also occurs.
   */
  lemma UsDollarNameIsUsd(t: string)
    requires t == "100美元"
    ensures ParsePriceText(t) == Parsed(Some(100.0), "USD")
  {
    NoSpaceStrip(t);
    HelperCleanupRedundant(t);
    UsDollarNameCleaned(t, HelperTable);
  }

  lemma UsDollarNameCleaned(t: string, table: seq<CurrencyKey>)
    requires t == "100美元" && table == HelperTable
    ensures ParseCleaned(table, t) == Parsed(Some(100.0), "USD")
  {
    var sym := table[5].symbol;
    UsDollarNameFirst(t, table);
    UsDollarNameRemoved(t, sym);
    HundredAmount(ReplaceAll(t, sym));
    ParseCleanedFound(table, t, 5, 100.0);
  }

  lemma UsDollarNameUnknownToScrapers(t: string, table: seq<CurrencyKey>)
    requires t == "100美元" && table == ScraperTable
    ensures FirstKey(table, t) == None
  {
    forall j | 0 <= j < |table| ensures !Occurs(t, table[j].symbol) {
      NotOccursWithoutFirstChar(t, table[j].symbol);
    }
  }

  /** The enhanced scraper does not know "美元" and falls back to Taiwan dollars. */
  lemma UsDollarNameIsTwdToScraper(t: string)
    requires t == "100美元"
    ensures ParsePriceEnhanced(t) == Parsed(Some(100.0), "TWD")
  {
    NoSpaceStrip(t);
    UsDollarNameScraperCleaned(t, ScraperTable);
  }

  lemma UsDollarNameScraperCleaned(t: string, table: seq<CurrencyKey>)
    requires t == "100美元" && table == ScraperTable
    ensures ParseCleaned(table, t) == Parsed(Some(100.0), "TWD")
  {
    UsDollarNameUnknownToScrapers(t, table);
    HundredBeforeName(t);
    ParseCleanedNoKey(table, t, 100.0);
  }

  /** The number stops at the first character that is neither a digit nor a comma. */
  lemma HundredBeforeName(t: string)
    requires t == "100美元"
    ensures AmountOf(t) == Some(100.0)
  {
    assert FirstNumIndex(t) == Some(0);
    assert t[0..] == t;
    assert NumRun(t[3..]) == 0;
    assert NumRun(t) == 3;
    assert AmountToken(t) == Some(Token(t[..3], false, ""));
    HundredAmount(t[..3]);
    AmountOfDigitsToken(t[..3]);
  }

  // ---- "$,": a symbol and a comma but no digit ----

  lemma DollarCommaFirst(t: string, table: seq<CurrencyKey>)
    requires t == "$," && table == ScraperTable
    ensures FirstKey(table, t) == Some(2)
  {
    assert t[..1] == table[2].symbol;
    FirstKeyIs(table, t, 2);
  }

  lemma CommaOnlyNoAmount(t: string, sym: string)
    requires t == "$," && sym == "$"
    ensures AmountOf(ReplaceAll(t, sym)) == None
  {
    assert t[..1] == sym;
    var rest := t[1..];
    assert rest == ",";
    NotOccursWithoutFirstChar(rest, sym);
    ReplaceAllAbsent(rest, sym);
    assert AmountToken(rest) == Some(Token(",", false, ""));
    assert Remove(",", ',') == "";
  }

  lemma CommaOnlyCleaned(t: string, table: seq<CurrencyKey>)
    requires t == "$," && table == ScraperTable
    ensures ParseCleaned(table, t) == Parsed(None, DefaultCurrency)
  {
    DollarCommaFirst(t, table);
    CommaOnlyNoAmount(t, table[2].symbol);
    ParseCleanedNoAmount(table, t, 2);
  }

  /** `float('')` raises, so a lone comma after the symbol gives no price and the currency falls back to TWD. */
  lemma CommaOnlyIsNoPrice(t: string)
    requires t == "$,"
    ensures ParsePriceEnhanced(t) == Parsed(None, "TWD")
  {
    NoSpaceStrip(t);
    CommaOnlyCleaned(t, ScraperTable);
  }
}
