/**
 * Free-text price parsing and fixed-rate currency conversion.
 *
 * The repository carries three near-copies of one parser
 * (`PriceParser.parse_price_text`, `EnhancedScraperService._parse_price`,
 * `BookingScraper._parse_price_text`). All three are modelled as one
 * function, `ParseCleaned`, applied to a currency table and to the text
 * after each copy's own whitespace clean-up.
 *
 * Amounts are exact reals: the decimal value of the matched digits.
 */
module PriceParsing {
  import opened Basics
  import opened Text

  /** One entry of a currency table: a symbol, code or localised name and the code it means. */
  datatype CurrencyKey = CurrencyKey(symbol: string, code: string)

  /** The result of a parse: Python's `(price or None, currency)` pair. */
  datatype Parsed = Parsed(price: Option<real>, currency: string)

  const DefaultCurrency: string := "TWD"

  /** `PriceParser.CURRENCY_SYMBOLS`, in insertion order. */
  const HelperTable: seq<CurrencyKey> := [
    CurrencyKey("NT$", "TWD"), CurrencyKey("TWD", "TWD"), CurrencyKey("台幣", "TWD"),
    CurrencyKey("$", "USD"), CurrencyKey("USD", "USD"), CurrencyKey("美元", "USD"),
    CurrencyKey("€", "EUR"), CurrencyKey("EUR", "EUR"), CurrencyKey("歐元", "EUR"),
    CurrencyKey("£", "GBP"), CurrencyKey("GBP", "GBP"), CurrencyKey("英鎊", "GBP"),
    CurrencyKey("¥", "JPY"), CurrencyKey("JPY", "JPY"), CurrencyKey("日元", "JPY"),
    CurrencyKey("元", "CNY"), CurrencyKey("CNY", "CNY"), CurrencyKey("人民幣", "CNY")
  ]

  /** The six-entry table shared by the two scraper copies of the parser. */
  const ScraperTable: seq<CurrencyKey> := [
    CurrencyKey("NT$", "TWD"), CurrencyKey("TWD", "TWD"), CurrencyKey("$", "USD"),
    CurrencyKey("€", "EUR"), CurrencyKey("£", "GBP"), CurrencyKey("¥", "JPY")
  ]

  /** The first entry, in table order, whose symbol occurs in `text`: the `for ... break` scan. */
  function FirstKey(table: seq<CurrencyKey>, text: string): (r: Option<nat>)
    ensures r.Some? ==> r.value < |table| && Occurs(text, table[r.value].symbol)
    ensures r.Some? ==> forall j :: 0 <= j < r.value ==> !Occurs(text, table[j].symbol)
    ensures r.None? ==> forall j :: 0 <= j < |table| ==> !Occurs(text, table[j].symbol)
  {
    if |table| == 0 then None
    else if Occurs(text, table[0].symbol) then Some(0)
    else match FirstKey(table[1..], text)
      case None => None
      case Some(k) => Some(k + 1)
  }

  // ---- the amount: the first match of [\d,]+\.?\d* ----

  predicate IsNumChar(c: char) {
    IsDigit(c) || c == ','
  }

  /** The length of the longest prefix of `s` made of digits and commas. */
  function NumRun(s: string): (n: nat)
    ensures n <= |s|
    ensures forall i :: 0 <= i < n ==> IsNumChar(s[i])
    ensures n < |s| ==> !IsNumChar(s[n])
  {
    if |s| == 0 || !IsNumChar(s[0]) then 0 else 1 + NumRun(s[1..])
  }

  /** The length of the longest prefix of `s` made of digits. */
  function DigitRun(s: string): (n: nat)
    ensures n <= |s|
    ensures forall i :: 0 <= i < n ==> IsDigit(s[i])
    ensures n < |s| ==> !IsDigit(s[n])
  {
    if |s| == 0 || !IsDigit(s[0]) then 0 else 1 + DigitRun(s[1..])
  }

  /** The position of the first digit or comma: where a leftmost regex match starts. */
  function FirstNumIndex(s: string): (r: Option<nat>)
    ensures r.Some? ==> r.value < |s| && IsNumChar(s[r.value])
    ensures r.Some? ==> forall j :: 0 <= j < r.value ==> !IsNumChar(s[j])
    ensures r.None? ==> forall j :: 0 <= j < |s| ==> !IsNumChar(s[j])
  {
    if |s| == 0 then None
    else if IsNumChar(s[0]) then Some(0)
    else match FirstNumIndex(s[1..])
      case None => None
      case Some(k) => Some(k + 1)
  }

  /**
   * A match of `[\d,]+\.?\d*`: the digits-and-commas part, whether a dot
   * follows, and the digits after the dot.
   */
  datatype Token = Token(whole: string, dot: bool, frac: string)

  function TokenText(t: Token): string {
    t.whole + (if t.dot then "." + t.frac else "")
  }

  /** The greedy match of `[\d,]+\.?\d*` at the start of `t`, which starts with a digit or comma. */
  function TokenAt(t: string): (r: Token)
    requires |t| > 0 && IsNumChar(t[0])
    ensures IsMatch(r)
  {
    var n := NumRun(t);
    if n < |t| && t[n] == '.' then
      var f := t[n + 1..];
      Token(t[..n], true, f[..DigitRun(f)])
    else
      Token(t[..n], false, "")
  }

  /** The greedy match starting at the first digit or comma of `s`, if there is one. */
  function AmountToken(s: string): (r: Option<Token>)
    ensures r.Some? <==> exists i :: 0 <= i < |s| && IsNumChar(s[i])
    ensures r.Some? ==> IsMatch(r.value)
  {
    match FirstNumIndex(s)
    case None => None
    case Some(i) => Some(TokenAt(s[i..]))
  }

  /** The value of the digits after a decimal point: `0.d1d2...` */
  function FractionValue(f: string): (v: real)
    requires forall i :: 0 <= i < |f| ==> IsDigit(f[i])
    ensures 0.0 <= v < 1.0
  {
    if |f| == 0 then 0.0
    else
      assert IsDigit(f[0]);
      ((f[0] as int - '0' as int) as real + FractionValue(f[1..])) / 10.0
  }

  /** `v * 10^k`: the decimal point of `v` moved `k` places to the right. */
  function Shifted(v: real, k: nat): real
    decreases k
  {
    if k == 0 then v else Shifted(10.0 * v, k - 1)
  }

  /**
   * A token is a match of the pattern: a non-empty run of digits and commas,
   * then digits only, and digits after the dot only when there is a dot.
   */
  predicate IsMatch(t: Token) {
    && |t.whole| > 0
    && (forall i :: 0 <= i < |t.whole| ==> IsNumChar(t.whole[i]))
    && (forall i :: 0 <= i < |t.frac| ==> IsDigit(t.frac[i]))
    && (!t.dot ==> t.frac == "")
  }

  /** The digits of a token in order, commas and the dot left out. */
  function TokenDigits(t: Token): (r: string)
    requires IsMatch(t)
    ensures forall i :: 0 <= i < |r| ==> IsDigit(r[i])
    ensures |r| == |Remove(t.whole, ',')| + |t.frac|
  {
    RemoveKeepsDigits(t.whole);
    var r := Remove(t.whole, ',') + t.frac;
    assert forall i :: 0 <= i < |r| ==> IsDigit(r[i]) by {
      forall i | 0 <= i < |r| ensures IsDigit(r[i]) {
        if i >= |Remove(t.whole, ',')| { assert r[i] == t.frac[i - |Remove(t.whole, ',')|]; }
      }
    }
    r
  }

  /**
   * `float(token.replace(',', ''))`: None where Python's `float` raises (no
   * digit at all); otherwise the number whose decimal point, moved right
   * past every digit after the dot, leaves the token's digits as an integer.
   */
  function TokenAmount(t: Token): (r: Option<real>)
    requires IsMatch(t)
    ensures r.Some? <==> |TokenDigits(t)| > 0
    ensures r.Some? ==> r.value >= 0.0
    ensures r.Some? ==> Shifted(r.value, |t.frac|) == DigitsValue(TokenDigits(t)) as real
  {
    var digits := Remove(t.whole, ',');
    RemoveKeepsDigits(t.whole);
    if |digits| == 0 && !(t.dot && |t.frac| > 0) then None
    else
      ShiftedDecimal(digits, t.frac);
      Some(DigitsValue(digits) as real + FractionValue(t.frac))
  }

  /** Moving the point of `w.f` right past all of `f` gives the integer `wf`. */
  lemma {:induction false} ShiftedDecimal(w: string, f: string)
    requires forall i :: 0 <= i < |w| ==> IsDigit(w[i])
    requires forall i :: 0 <= i < |f| ==> IsDigit(f[i])
    ensures forall i :: 0 <= i < |w + f| ==> IsDigit((w + f)[i])
    ensures Shifted(DigitsValue(w) as real + FractionValue(f), |f|) == DigitsValue(w + f) as real
    decreases |f|
  {
    forall i | 0 <= i < |w + f| ensures IsDigit((w + f)[i]) {
      if i >= |w| { assert (w + f)[i] == f[i - |w|]; }
    }
    if |f| == 0 {
      assert w + f == w;
    } else {
      var w' := w + [f[0]];
      assert w'[..|w'| - 1] == w;
      assert forall i :: 0 <= i < |w'| ==> IsDigit(w'[i]);
      ShiftedDecimal(w', f[1..]);
      assert w' + f[1..] == w + f;
    }
  }

  /** Deleting the commas from a run of digits and commas leaves only digits. */
  lemma {:induction false} RemoveKeepsDigits(s: string)
    requires forall i :: 0 <= i < |s| ==> IsNumChar(s[i])
    ensures forall i :: 0 <= i < |Remove(s, ',')| ==> IsDigit(Remove(s, ',')[i])
  {
    if |s| > 0 {
      RemoveKeepsDigits(s[1..]);
    }
  }

  /** The amount of a text after the currency symbol was removed. */
  function AmountOf(s: string): (r: Option<real>)
    ensures r.Some? ==> r.value >= 0.0
  {
    match AmountToken(s)
    case None => None
    case Some(t) => TokenAmount(t)
  }

  /**
   * `s` splits at its leftmost, longest match of `[\d,]+\.?\d*`: `pre` holds
   * no digit or comma, `tok` is a match, and `post` cannot extend it (no
   * digit; and without a dot, no comma or dot either).
   */
  predicate FirstNumber(s: string, pre: string, tok: Token, post: string) {
    && IsMatch(tok)
    && s == pre + TokenText(tok) + post
    && (forall i :: 0 <= i < |pre| ==> !IsNumChar(pre[i]))
    && (|post| > 0 ==> !IsDigit(post[0]) && (!tok.dot ==> post[0] != ',' && post[0] != '.'))
  }

  /** A run of digits and commas followed by something else is read to its end. */
  lemma {:induction false} NumRunOf(w: string, x: string)
    requires forall i :: 0 <= i < |w| ==> IsNumChar(w[i])
    requires |x| > 0 ==> !IsNumChar(x[0])
    ensures NumRun(w + x) == |w|
  {
    if |w| > 0 {
      assert (w + x)[1..] == w[1..] + x;
      NumRunOf(w[1..], x);
    } else {
      assert w + x == x;
    }
  }

  /** A run of digits followed by something else is read to its end. */
  lemma {:induction false} DigitRunOf(d: string, x: string)
    requires forall i :: 0 <= i < |d| ==> IsDigit(d[i])
    requires |x| > 0 ==> !IsDigit(x[0])
    ensures DigitRun(d + x) == |d|
  {
    if |d| > 0 {
      assert (d + x)[1..] == d[1..] + x;
      DigitRunOf(d[1..], x);
    } else {
      assert d + x == x;
    }
  }

  /** After a prefix without digits or commas, the first one is where the rest starts. */
  lemma {:induction false} FirstNumIndexOf(pre: string, rest: string)
    requires forall i :: 0 <= i < |pre| ==> !IsNumChar(pre[i])
    requires |rest| > 0 && IsNumChar(rest[0])
    ensures FirstNumIndex(pre + rest) == Some(|pre|)
  {
    if |pre| > 0 {
      assert (pre + rest)[1..] == pre[1..] + rest;
      FirstNumIndexOf(pre[1..], rest);
    } else {
      assert pre + rest == rest;
    }
  }

  /** At a match followed by text that cannot extend it, `TokenAt` reads exactly that match. */
  lemma TokenAtFinds(tok: Token, post: string)
    requires FirstNumber(TokenText(tok) + post, "", tok, post)
    ensures TokenAt(TokenText(tok) + post) == tok
  {
    if tok.dot {
      TokenAtFindsDot(tok.whole, tok.frac, post);
    } else {
      TokenAtFindsWhole(tok.whole, post);
    }
  }

  lemma TokenAtFindsDot(w: string, d: string, post: string)
    requires |w| > 0 && forall i :: 0 <= i < |w| ==> IsNumChar(w[i])
    requires forall i :: 0 <= i < |d| ==> IsDigit(d[i])
    requires |post| > 0 ==> !IsDigit(post[0])
    ensures TokenAt(w + ("." + d) + post) == Token(w, true, d)
  {
    var t := w + ("." + d) + post;
    assert t == w + ("." + d + post);
    NumRunOf(w, "." + d + post);
    assert t[..|w|] == w;
    var f := t[|w| + 1..];
    assert f == d + post;
    DigitRunOf(d, post);
    assert f[..|d|] == d;
  }

  lemma TokenAtFindsWhole(w: string, post: string)
    requires |w| > 0 && forall i :: 0 <= i < |w| ==> IsNumChar(w[i])
    requires |post| > 0 ==> !IsNumChar(post[0]) && post[0] != '.'
    ensures TokenAt(w + "" + post) == Token(w, false, "")
  {
    var t := w + "" + post;
    assert t == w + post;
    NumRunOf(w, post);
    assert t[..|w|] == w;
  }

  /** `TokenAt` reads a prefix of its text, and what follows cannot extend it. */
  lemma TokenAtIsMatch(t: string)
    requires |t| > 0 && IsNumChar(t[0])
    ensures |TokenText(TokenAt(t))| <= |t|
    ensures FirstNumber(t, "", TokenAt(t), t[|TokenText(TokenAt(t))|..])
  {
    var n := NumRun(t);
    if n < |t| && t[n] == '.' {
      TokenAtIsMatchDot(t, n);
    } else {
      assert TokenText(TokenAt(t)) == t[..n];
      assert t == "" + t[..n] + t[n..];
    }
  }

  lemma TokenAtIsMatchDot(t: string, n: nat)
    requires |t| > 0 && IsNumChar(t[0])
    requires n == NumRun(t) && n < |t| && t[n] == '.'
    ensures |TokenText(TokenAt(t))| <= |t|
    ensures FirstNumber(t, "", TokenAt(t), t[|TokenText(TokenAt(t))|..])
  {
    var f := t[n + 1..];
    var m := DigitRun(f);
    DotSlices(t, n, m);
    SplitAt(t, n + 1 + m);
  }

  lemma DotSlices(t: string, n: nat, m: nat)
    requires n < |t| && t[n] == '.' && m <= |t| - n - 1
    ensures t[..n] + ("." + t[n + 1..][..m]) == t[..n + 1 + m]
  {
  }

  lemma SplitAt(t: string, k: nat)
    requires k <= |t|
    ensures t == "" + t[..k] + t[k..]
  {
  }

  /** `AmountToken` finds exactly the leftmost, longest match. */
  lemma AmountTokenFinds(s: string, pre: string, tok: Token, post: string)
    requires FirstNumber(s, pre, tok, post)
    ensures AmountToken(s) == Some(tok)
  {
    var t := TokenText(tok) + post;
    assert s == pre + t;
    assert t[0] == tok.whole[0];
    FirstNumIndexOf(pre, t);
    assert s[|pre|..] == t;
    assert "" + TokenText(tok) + post == t;
    TokenAtFinds(tok, post);
  }

  /** Whatever `AmountToken` returns is the leftmost, longest match. */
  lemma AmountTokenIsFirst(s: string)
    requires AmountToken(s).Some?
    ensures FirstNumIndex(s).Some?
    ensures FirstNumber(s, s[..FirstNumIndex(s).value], AmountToken(s).value,
                        s[FirstNumIndex(s).value + |TokenText(AmountToken(s).value)|..])
  {
    var i := FirstNumIndex(s).value;
    var t := s[i..];
    TokenAtIsMatch(t);
    var k := |TokenText(TokenAt(t))|;
    SuffixSlices(s, i, k);
    FirstNumberAfter(s[..i], t, TokenAt(t), t[k..]);
  }

  lemma SuffixSlices(s: string, i: nat, k: nat)
    requires i + k <= |s|
    ensures s[i..][k..] == s[i + k..]
    ensures s == s[..i] + s[i..]
  {
  }

  /** A prefix without digits or commas does not change which match comes first. */
  lemma FirstNumberAfter(pre: string, t: string, tok: Token, post: string)
    requires FirstNumber(t, "", tok, post)
    requires forall i :: 0 <= i < |pre| ==> !IsNumChar(pre[i])
    ensures FirstNumber(pre + t, pre, tok, post)
  {
    assert t == TokenText(tok) + post;
  }

  /** The amount of a text is the value of its leftmost, longest match. */
  lemma AmountOfFirstNumber(s: string, pre: string, tok: Token, post: string)
    requires FirstNumber(s, pre, tok, post)
    ensures AmountOf(s) == TokenAmount(tok)
  {
    AmountTokenFinds(s, pre, tok, post);
  }

  /**
   * The shared parser core, applied to already cleaned text: pick the
   * first table entry whose symbol occurs, delete every occurrence of that
   * symbol, read the first number. Failure is `(None, 'TWD')` whatever
   * symbol had matched.
   */
  function ParseCleaned(table: seq<CurrencyKey>, text: string): (r: Parsed)
    ensures r.price.None? ==> r.currency == DefaultCurrency
    ensures r.price.Some? ==> r.price.value >= 0.0
    ensures r.price.Some? && FirstKey(table, text).None? ==> r.currency == DefaultCurrency
    ensures r.price.Some? && FirstKey(table, text).Some? ==> r.currency == table[FirstKey(table, text).value].code
  {
    var k := FirstKey(table, text);
    match AmountOf(SymbolRemoved(table, text))
    case None => Parsed(None, DefaultCurrency)
    case Some(v) => Parsed(Some(v), if k.Some? then table[k.value].code else DefaultCurrency)
  }

  /** The text with every occurrence of the first table symbol it contains deleted. */
  function SymbolRemoved(table: seq<CurrencyKey>, text: string): (r: string)
    ensures |r| <= |text|
    ensures forall c :: c in r ==> c in text
    ensures FirstKey(table, text).None? ==> r == text
  {
    match FirstKey(table, text)
    case None => text
    case Some(k) => ReplaceAll(text, table[k].symbol)
  }

  /**
   * The parser core reads the leftmost, longest match of `[\d,]+\.?\d*` in
   * what is left once the symbol is deleted, and nothing else.
   */
  lemma ParseCleanedReads(table: seq<CurrencyKey>, text: string, pre: string, tok: Token, post: string)
    requires FirstNumber(SymbolRemoved(table, text), pre, tok, post)
    ensures ParseCleaned(table, text).price == TokenAmount(tok)
  {
    AmountOfFirstNumber(SymbolRemoved(table, text), pre, tok, post);
  }

  predicate IsLineFeedOrTab(c: char) {
    c == '\n' || c == '\t'
  }

  predicate IsLineFeedOrSpace(c: char) {
    c == '\n' || c == ' '
  }

  /** `PriceParser.parse_price_text`. */
  function ParsePriceText(priceText: string): (r: Parsed)
    ensures r.price.None? ==> r.currency == DefaultCurrency
    ensures priceText == "" ==> r == Parsed(None, DefaultCurrency)
  {
    if priceText == "" then Parsed(None, DefaultCurrency)
    else
      var cleaned := RemoveWhere(StripSpaces(priceText), IsLineFeedOrTab);
      ParseCleaned(HelperTable, cleaned)
  }

  /** `EnhancedScraperService._parse_price`. */
  function ParsePriceEnhanced(priceText: string): (r: Parsed)
    ensures r.price.None? ==> r.currency == DefaultCurrency
    ensures r.price.Some? ==> r.price.value >= 0.0
  {
    ParseCleaned(ScraperTable, StripSpaces(priceText))
  }

  /** `BookingScraper._parse_price_text`: only line feeds and spaces are removed. */
  function ParsePriceBooking(priceText: string): (r: Parsed)
    ensures r.price.None? ==> r.currency == DefaultCurrency
    ensures r.price.Some? ==> r.price.value >= 0.0
  {
    ParseCleaned(ScraperTable, RemoveWhere(priceText, IsLineFeedOrSpace))
  }

  /** Without any digit or comma there is no amount, whatever currency symbol the text carries. */
  lemma NoNumberNoPrice(table: seq<CurrencyKey>, text: string)
    requires forall i :: 0 <= i < |text| ==> !IsNumChar(text[i])
    ensures ParseCleaned(table, text) == Parsed(None, DefaultCurrency)
  {
    var rest := SymbolRemoved(table, text);
    forall i | 0 <= i < |rest| ensures !IsNumChar(rest[i]) {
      assert rest[i] in text;
    }
    assert AmountToken(rest).None?;
  }

  /** Removing characters by two tests that agree on every character of `s` gives the same string. */
  lemma {:induction false} RemoveWhereSame(s: string, p: char -> bool, q: char -> bool)
    requires forall i :: 0 <= i < |s| ==> p(s[i]) == q(s[i])
    ensures RemoveWhere(s, p) == RemoveWhere(s, q)
  {
    if |s| > 0 {
      RemoveWhereSame(s[1..], p, q);
    }
  }

  /** Line feeds and tabs are whitespace, so none survive `StripSpaces`. */
  lemma NoLineFeedOrTabAfterStrip(t: string)
    ensures RemoveWhere(StripSpaces(t), IsLineFeedOrTab) == StripSpaces(t)
  {
    RemoveWhereNone(StripSpaces(t), IsLineFeedOrTab);
  }

  /**
   * The helper's second clean-up (line feeds and tabs) never finds anything,
   * so the helper parses exactly what the enhanced scraper's clean-up leaves.
   */
  lemma HelperCleanupRedundant(priceText: string)
    requires priceText != ""
    ensures ParsePriceText(priceText) == ParseCleaned(HelperTable, StripSpaces(priceText))
  {
    var stripped := StripSpaces(priceText);
    var cleaned := RemoveWhere(stripped, IsLineFeedOrTab);
    NoLineFeedOrTabAfterStrip(priceText);
    assert ParsePriceText(priceText) == ParseCleaned(HelperTable, cleaned);
  }

  /**
   * The two scraper copies differ only in their clean-up, so they agree on
   * every text whose only whitespace is spaces and line feeds.
   */
  lemma ScraperParsersAgree(priceText: string)
    requires forall i :: 0 <= i < |priceText| && IsSpace(priceText[i]) ==> priceText[i] == ' ' || priceText[i] == '\n'
    ensures ParsePriceEnhanced(priceText) == ParsePriceBooking(priceText)
  {
    RemoveWhereSame(priceText, IsSpace, IsLineFeedOrSpace);
  }

  /** The helper parser reads the first number left after spaces and the symbol are removed. */
  lemma ParsePriceTextReads(priceText: string, pre: string, tok: Token, post: string)
    requires FirstNumber(SymbolRemoved(HelperTable, StripSpaces(priceText)), pre, tok, post)
    ensures ParsePriceText(priceText).price == TokenAmount(tok)
  {
    if priceText != "" {
      HelperCleanupRedundant(priceText);
    }
    ParseCleanedReads(HelperTable, StripSpaces(priceText), pre, tok, post);
  }

  /** The enhanced scraper reads the first number left after spaces and the symbol are removed. */
  lemma ParsePriceEnhancedReads(priceText: string, pre: string, tok: Token, post: string)
    requires FirstNumber(SymbolRemoved(ScraperTable, StripSpaces(priceText)), pre, tok, post)
    ensures ParsePriceEnhanced(priceText).price == TokenAmount(tok)
  {
    ParseCleanedReads(ScraperTable, StripSpaces(priceText), pre, tok, post);
  }

  /** The Booking scraper reads the first number left after line feeds, spaces and the symbol are removed. */
  lemma ParsePriceBookingReads(priceText: string, pre: string, tok: Token, post: string)
    requires FirstNumber(SymbolRemoved(ScraperTable, RemoveWhere(priceText, IsLineFeedOrSpace)), pre, tok, post)
    ensures ParsePriceBooking(priceText).price == TokenAmount(tok)
  {
    ParseCleanedReads(ScraperTable, RemoveWhere(priceText, IsLineFeedOrSpace), pre, tok, post);
  }

  // ---- PriceParser.normalize_price ----

  /** Python's truth value of a parsed price: present and not zero. */
  predicate TruthyPrice(p: Parsed) {
    p.price.Some? && p.price.value != 0.0
  }

  /** The fixed rates, in Taiwan dollars for one unit, of the six codes the helper knows. */
  const ExchangeRates: map<string, real> :=
    map["USD" := 31.5, "EUR" := 34.2, "GBP" := 39.8, "JPY" := 0.21, "CNY" := 4.35, "TWD" := 1.0]

  function RateToTwd(code: string): (r: Option<real>)
    ensures r.Some? ==> r.value > 0.0
    ensures code == "TWD" ==> r == Some(1.0)
  {
    if code in ExchangeRates then Some(ExchangeRates[code]) else None
  }

  /**
   * Convert `price` from `currency` to `target` through Taiwan dollars; an
   * unknown code on either side leaves the price unchanged.
   */
  function NormalizePrice(price: real, currency: string, target: string): (r: real)
    ensures currency == target ==> r == price
    ensures RateToTwd(currency).None? || RateToTwd(target).None? ==> r == price
  {
    if currency == target then price
    else match (RateToTwd(currency), RateToTwd(target))
      case (Some(from), Some(to)) => price * from / to
      case _ => price
  }

  /** Between two known currencies the conversion is a multiplication by the ratio of their rates. */
  lemma NormalizeKnown(price: real, a: string, b: string)
    requires RateToTwd(a).Some? && RateToTwd(b).Some?
    ensures NormalizePrice(price, a, b) == price * (RateToTwd(a).value / RateToTwd(b).value)
  {
    var ra, rb := RateToTwd(a).value, RateToTwd(b).value;
    if a == b {
      assert ra / rb == 1.0;
    } else {
      assert price * ra / rb == price * (ra / rb);
    }
  }

  /** The conversion keeps the amount's worth in Taiwan dollars whenever both currencies are known. */
  lemma NormalizeKeepsTwdValue(price: real, a: string, b: string)
    ensures RateToTwd(a).Some? && RateToTwd(b).Some? ==>
      NormalizePrice(price, a, b) * RateToTwd(b).value == price * RateToTwd(a).value
  {
    if RateToTwd(a).Some? && RateToTwd(b).Some? {
      NormalizeKnown(price, a, b);
      RatioCancel(price, RateToTwd(a).value, RateToTwd(b).value);
    }
  }

  lemma RatioCancel(p: real, x: real, y: real)
    requires y > 0.0
    ensures p * (x / y) * y == p * x
  {
  }

  /**
   * Two amounts `y` and `z` in the currency of rate `rc`, each worth in
   * Taiwan dollars what `p` at rate `ra` is worth, are equal.
   */
  lemma SameTwdValue(p: real, x: real, y: real, z: real, ra: Option<real>, rb: Option<real>, rc: Option<real>)
    ensures (ra.Some? && rb.Some? && rc.Some? && rc.value > 0.0
      && x * rb.value == p * ra.value && y * rc.value == x * rb.value && z * rc.value == p * ra.value) ==> y == z
  {
  }

  /** Converting there and back returns the original amount. */
  lemma NormalizeRoundTrip(price: real, a: string, b: string)
    ensures NormalizePrice(NormalizePrice(price, a, b), b, a) == price
  {
    var x := NormalizePrice(price, a, b);
    NormalizeKeepsTwdValue(price, a, b);
    NormalizeKeepsTwdValue(x, b, a);
    SameTwdValue(price, x, NormalizePrice(x, b, a), price, RateToTwd(a), RateToTwd(b), RateToTwd(a));
  }

  /** Converting through an intermediate known currency is the same as converting directly. */
  lemma NormalizeCompose(price: real, a: string, b: string, c: string)
    requires RateToTwd(a).Some? && RateToTwd(b).Some? && RateToTwd(c).Some?
    ensures NormalizePrice(NormalizePrice(price, a, b), b, c) == NormalizePrice(price, a, c)
  {
    var x := NormalizePrice(price, a, b);
    NormalizeKeepsTwdValue(price, a, b);
    NormalizeKeepsTwdValue(x, b, c);
    NormalizeKeepsTwdValue(price, a, c);
    SameTwdValue(price, x, NormalizePrice(x, b, c), NormalizePrice(price, a, c), RateToTwd(a), RateToTwd(b), RateToTwd(c));
  }
}
