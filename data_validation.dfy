/**
 * `DataValidator`: the sanity checks applied to scraped hotel names and
 * prices, and the hotel-name clean-up.
 */
module DataValidation {
  import opened Basics
  import opened Text
  import PriceParsing

  // ---- str.strip ----

  /** `s.lstrip()`: leading whitespace removed. */
  function StripLeft(s: string): (r: string)
    ensures |r| <= |s|
    ensures r == s[|s| - |r|..]
    ensures |r| > 0 ==> !IsSpace(r[0])
    ensures forall i :: 0 <= i < |s| - |r| ==> IsSpace(s[i])
  {
    if |s| > 0 && IsSpace(s[0]) then StripLeft(s[1..]) else s
  }

  /** `s.rstrip()`: trailing whitespace removed. */
  function StripRight(s: string): (r: string)
    ensures |r| <= |s|
    ensures r == s[..|r|]
    ensures |r| > 0 ==> !IsSpace(r[|r| - 1])
    ensures forall i :: |r| <= i < |s| ==> IsSpace(s[i])
  {
    if |s| > 0 && IsSpace(s[|s| - 1]) then StripRight(s[..|s| - 1]) else s
  }

  /** `s.strip()`. */
  function Strip(s: string): (r: string)
    ensures |r| <= |s|
    ensures |r| > 0 ==> !IsSpace(r[0]) && !IsSpace(r[|r| - 1])
  {
    StripRight(StripLeft(s))
  }

  /** A string that neither begins nor ends with whitespace is its own strip. */
  lemma StripUnpadded(s: string)
    requires |s| > 0 ==> !IsSpace(s[0]) && !IsSpace(s[|s| - 1])
    ensures Strip(s) == s
  {
  }

  // ---- DataValidator.is_valid_hotel_name ----

  const SpamKeywords: seq<string> := ["廣告", "ad", "advertisement", "spam", "點擊這裡"]

  /** No spam keyword occurs in the (ASCII) lower-cased name. */
  predicate FreeOfSpam(name: string) {
    forall k :: 0 <= k < |SpamKeywords| ==> !Occurs(Lower(name), SpamKeywords[k])
  }

  /**
   * A usable name has at least two characters besides surrounding
   * whitespace and contains no spam keyword, matched as a plain substring.
   */
  function IsValidHotelName(name: string): (ok: bool)
    ensures ok ==> |name| >= 2
    ensures ok <==> |Strip(name)| >= 2 && forall k :: 0 <= k < |SpamKeywords| ==> !Occurs(Lower(name), SpamKeywords[k])
  {
    if name == "" || |Strip(name)| < 2 then false
    else
      assert SpamKeywords[1] == "ad" && SpamKeywords[3] == "spam";
      FreeOfSpam(name)
  }

  /** A key occurs wherever a longer key that begins with it occurs. */
  lemma {:induction false} OccursPrefix(s: string, k: string, p: string)
    requires Occurs(s, k) && StartsWith(k, p)
    ensures Occurs(s, p)
    decreases |s|
  {
    if !StartsWith(s, k) {
      OccursPrefix(s[1..], k, p);
    } else {
      assert s[..|p|] == k[..|p|];
    }
  }

  /** "advertisement" begins with "ad", so that keyword never decides anything on its own. */
  lemma AdvertisementRedundant(name: string)
    requires !Occurs(Lower(name), "ad")
    ensures !Occurs(Lower(name), "advertisement")
  {
    if Occurs(Lower(name), "advertisement") {
      OccursPrefix(Lower(name), "advertisement", "ad");
    }
  }

  /**
   * The accepted names, keyword by keyword: at least two characters
   * besides surrounding whitespace and none of "廣告", "ad", "spam" and
   * "點擊這裡" ("advertisement" adds nothing, as it contains "ad").
   */
  lemma HotelNameKeywords(name: string)
    ensures IsValidHotelName(name) <==>
      (|Strip(name)| >= 2 && !Occurs(Lower(name), "廣告") && !Occurs(Lower(name), "ad")
       && !Occurs(Lower(name), "spam") && !Occurs(Lower(name), "點擊這裡"))
  {
    var l := Lower(name);
    assert SpamKeywords[0] == "廣告" && SpamKeywords[1] == "ad" && SpamKeywords[2] == "advertisement";
    assert SpamKeywords[3] == "spam" && SpamKeywords[4] == "點擊這裡";
    if !Occurs(l, "廣告") && !Occurs(l, "ad") && !Occurs(l, "spam") && !Occurs(l, "點擊這裡") {
      AdvertisementRedundant(name);
      forall k | 0 <= k < |SpamKeywords|
        ensures !Occurs(l, SpamKeywords[k])
      {
        assert k == 0 || k == 1 || k == 2 || k == 3 || k == 4;
      }
    }
  }

  lemma RoadInnHasAd(t: string)
    requires t == "Road Inn"
    ensures Occurs(Lower(t), "ad")
  {
    var l := Lower(t);
    assert l[2..][..2] == "ad";
    assert StartsWith(l[2..], "ad");
    assert l[1..][1..] == l[2..];
  }

  /**
   * Keywords are matched inside words: "Road Inn" contains "ad" and is
   * rejected as spam.
   */
  lemma RoadInnRejected(t: string)
    requires t == "Road Inn"
    ensures !IsValidHotelName(t)
  {
    RoadInnHasAd(t);
    assert SpamKeywords[1] == "ad";
  }

  lemma TokyoInnStripped(t: string)
    requires t == "Tokyo Inn"
    ensures Strip(t) == t
  {
    StripUnpadded(t);
  }

  lemma TokyoInnFree(t: string)
    requires t == "Tokyo Inn"
    ensures FreeOfSpam(t)
  {
    var l := Lower(t);
    assert l == "tokyo inn";
    forall k | 0 <= k < |SpamKeywords| ensures !Occurs(l, SpamKeywords[k]) {
      NotOccursWithoutFirstChar(l, SpamKeywords[k]);
    }
  }

  /** A name with no keyword inside it is accepted. */
  lemma TokyoInnAccepted(t: string)
    requires t == "Tokyo Inn"
    ensures IsValidHotelName(t)
  {
    TokyoInnStripped(t);
    TokyoInnFree(t);
  }

  // ---- DataValidator.is_valid_price ----

  /** A plausible price band; `hi == None` is Python's `float('inf')`. */
  datatype Band = Band(lo: real, hi: Option<real>)

  function PriceBand(currency: string): (b: Band)
    ensures currency == "TWD" ==> b == Band(500.0, Some(50000.0))
    ensures currency in {"USD", "EUR", "GBP"} ==> b == Band(20.0, Some(2000.0))
    ensures currency == "JPY" ==> b == Band(2000.0, Some(200000.0))
    ensures currency !in {"TWD", "USD", "EUR", "GBP", "JPY"} ==> b == Band(0.0, None)
  {
    if currency == "TWD" then Band(500.0, Some(50000.0))
    else if currency == "USD" || currency == "EUR" || currency == "GBP" then Band(20.0, Some(2000.0))
    else if currency == "JPY" then Band(2000.0, Some(200000.0))
    else Band(0.0, None)
  }

  /** A price is plausible when it is positive and inside its currency's band (both ends included). */
  function IsValidPrice(price: real, currency: string): (ok: bool)
    ensures ok ==> price > 0.0
    ensures currency == "TWD" ==> (ok <==> 500.0 <= price <= 50000.0)
    ensures currency in {"USD", "EUR", "GBP"} ==> (ok <==> 20.0 <= price <= 2000.0)
    ensures currency == "JPY" ==> (ok <==> 2000.0 <= price <= 200000.0)
    ensures currency !in {"TWD", "USD", "EUR", "GBP", "JPY"} ==> (ok <==> price > 0.0)
  {
    if price <= 0.0 then false
    else
      var band := PriceBand(currency);
      band.lo <= price && (band.hi.None? || price <= band.hi.value)
  }

  /**
   * The bands are not consistent with the fixed exchange rates: the most
   * expensive plausible US-dollar price is implausible once converted.
   */
  lemma UsdBandExceedsTwdBand()
    ensures IsValidPrice(2000.0, "USD")
    ensures PriceParsing.NormalizePrice(2000.0, "USD", "TWD") == 63000.0
    ensures !IsValidPrice(63000.0, "TWD")
  {
    PriceParsing.NormalizeKnown(2000.0, "USD", "TWD");
  }

  /** The cheapest plausible yen price is below the Taiwan-dollar band once converted. */
  lemma JpyBandBelowTwdBand()
    ensures IsValidPrice(2000.0, "JPY")
    ensures PriceParsing.NormalizePrice(2000.0, "JPY", "TWD") == 420.0
    ensures !IsValidPrice(420.0, "TWD")
  {
    PriceParsing.NormalizeKnown(2000.0, "JPY", "TWD");
  }

  // ---- DataValidator.clean_hotel_name ----

  /** `re.sub(r'\s+', ' ', s)`: every maximal run of whitespace becomes one space. */
  function CollapseSpaces(s: string): (r: string)
    ensures |r| <= |s|
    ensures forall i :: 0 <= i < |r| && IsSpace(r[i]) ==> r[i] == ' '
    ensures |s| > 0 ==> |r| > 0 && (IsSpace(r[0]) <==> IsSpace(s[0]))
    ensures forall i :: 0 <= i < |r| - 1 ==> !(r[i] == ' ' && r[i + 1] == ' ')
    decreases |s|
  {
    if |s| == 0 then ""
    else if IsSpace(s[0]) then " " + CollapseSpaces(StripLeft(s[1..]))
    else [s[0]] + CollapseSpaces(s[1..])
  }

  /** The punctuation `[\w\s\-\(\)\[\]\.\/\&]` keeps besides word characters and whitespace. */
  const KeptPunctuation: set<char> := {'-', '(', ')', '[', ']', '.', '/', '&'}

  /**
   * Whether the clean-up keeps `c`. `word` is Python's `\w` on one
   * character (Unicode letters, digits and underscore), which is a
   * parameter of the model.
   */
  predicate Kept(word: char -> bool, c: char) {
    word(c) || IsSpace(c) || c in KeptPunctuation
  }

  function Dropped(word: char -> bool): char -> bool {
    c => !Kept(word, c)
  }

  /** `DataValidator.clean_hotel_name`. */
  function CleanHotelName(name: string, word: char -> bool): (r: string)
    ensures |r| <= |name|
    ensures forall i :: 0 <= i < |r| ==> word(r[i]) || r[i] == ' ' || r[i] in KeptPunctuation
  {
    if name == "" then ""
    else
      var collapsed := CollapseSpaces(Strip(name));
      var r := RemoveWhere(collapsed, Dropped(word));
      assert forall i :: 0 <= i < |r| ==> Kept(word, r[i]);
      KeptInCollapsed(collapsed, word);
      r
  }

  lemma {:induction false} KeptInCollapsed(s: string, word: char -> bool)
    requires forall i :: 0 <= i < |s| && IsSpace(s[i]) ==> s[i] == ' '
    ensures forall i :: 0 <= i < |RemoveWhere(s, Dropped(word))| ==>
      (IsSpace(RemoveWhere(s, Dropped(word))[i]) ==> RemoveWhere(s, Dropped(word))[i] == ' ')
  {
    if |s| > 0 {
      KeptInCollapsed(s[1..], word);
    }
  }

  /** Stripping removes only whitespace. */
  lemma StripKeeps(s: string)
    ensures RemoveWhere(Strip(s), IsSpace) == RemoveWhere(s, IsSpace)
  {
    StripLeftKeeps(s);
    StripRightKeeps(StripLeft(s));
  }

  lemma StripLeftKeeps(s: string)
    ensures RemoveWhere(StripLeft(s), IsSpace) == RemoveWhere(s, IsSpace)
  {
    var l := StripLeft(s);
    var k := |s| - |l|;
    assert s == s[..k] + l;
    RemoveWhereAll(s[..k], IsSpace);
    RemoveWhereAppend(s[..k], l, IsSpace);
  }

  lemma StripRightKeeps(s: string)
    ensures RemoveWhere(StripRight(s), IsSpace) == RemoveWhere(s, IsSpace)
  {
    var r := StripRight(s);
    assert s == r + s[|r|..];
    RemoveWhereAll(s[|r|..], IsSpace);
    RemoveWhereAppend(r, s[|r|..], IsSpace);
  }

  /** Collapsing whitespace runs leaves the other characters as they were. */
  lemma {:induction false} CollapseKeeps(s: string)
    ensures RemoveWhere(CollapseSpaces(s), IsSpace) == RemoveWhere(s, IsSpace)
    decreases |s|
  {
    if |s| > 0 {
      if IsSpace(s[0]) {
        var t := StripLeft(s[1..]);
        CollapseKeeps(t);
        StripLeftKeeps(s[1..]);
        RemoveWhereAppend(" ", CollapseSpaces(t), IsSpace);
      } else {
        CollapseKeeps(s[1..]);
        RemoveWhereAppend([s[0]], CollapseSpaces(s[1..]), IsSpace);
      }
    }
  }

  function DroppedOrSpace(word: char -> bool): char -> bool {
    c => IsSpace(c) || !Kept(word, c)
  }

  /**
   * Whitespace aside, the clean-up keeps exactly the name's word
   * characters and listed punctuation, in their order.
   */
  lemma CleanHotelNameKeeps(name: string, word: char -> bool)
    ensures RemoveWhere(CleanHotelName(name, word), IsSpace) == RemoveWhere(name, DroppedOrSpace(word))
  {
    if name != "" {
      var collapsed := CollapseSpaces(Strip(name));
      RemoveWhereTwice(collapsed, Dropped(word), IsSpace, DroppedOrSpace(word));
      RemoveWhereTwice(collapsed, IsSpace, Dropped(word), DroppedOrSpace(word));
      CollapseKeeps(Strip(name));
      StripKeeps(name);
      RemoveWhereTwice(name, IsSpace, Dropped(word), DroppedOrSpace(word));
    }
  }

  /** A name the clean-up cannot improve: no surrounding whitespace, only kept characters, and whitespace only as single spaces. */
  predicate TidyName(name: string, word: char -> bool) {
    && (|name| > 0 ==> !IsSpace(name[0]) && !IsSpace(name[|name| - 1]))
    && (forall i :: 0 <= i < |name| ==> Kept(word, name[i]))
    && (forall i :: 0 <= i < |name| && IsSpace(name[i]) ==> name[i] == ' ')
    && (forall i :: 0 <= i < |name| - 1 ==> !(name[i] == ' ' && name[i + 1] == ' '))
  }

  /** A name that is already tidy comes back unchanged. */
  lemma CleanTidyName(name: string, word: char -> bool)
    requires TidyName(name, word)
    ensures CleanHotelName(name, word) == name
  {
    if name != "" {
      StripUnpadded(name);
      CollapseSingleSpaces(name);
      RemoveWhereNone(name, Dropped(word));
    }
  }

  /** Collapsing changes nothing where every whitespace character is a lone space. */
  lemma {:induction false} CollapseSingleSpaces(s: string)
    requires forall i :: 0 <= i < |s| && IsSpace(s[i]) ==> s[i] == ' '
    requires forall i :: 0 <= i < |s| - 1 ==> !(s[i] == ' ' && s[i + 1] == ' ')
    ensures CollapseSpaces(s) == s
    decreases |s|
  {
    if |s| > 0 {
      if IsSpace(s[0]) {
        var t := s[1..];
        assert |t| > 0 ==> !IsSpace(t[0]);
        assert StripLeft(t) == t;
        CollapseSingleSpaces(t);
        assert s == " " + t;
      } else {
        CollapseSingleSpaces(s[1..]);
        assert s == [s[0]] + s[1..];
      }
    }
  }

  /**
   * A name with nothing to drop comes out tidy: stripped, and every run of
   * whitespace turned into a single space.
   */
  lemma CleanKeptName(name: string, word: char -> bool)
    requires forall i :: 0 <= i < |name| ==> Kept(word, name[i])
    ensures TidyName(CleanHotelName(name, word), word)
  {
    if name != "" {
      StripKeptChars(name, word);
      CollapseTidy(Strip(name), word);
      RemoveWhereNone(CollapseSpaces(Strip(name)), Dropped(word));
    }
  }

  /** Collapsing a stripped text of kept characters gives a tidy one. */
  lemma CollapseTidy(st: string, word: char -> bool)
    requires |st| > 0 ==> !IsSpace(st[0]) && !IsSpace(st[|st| - 1])
    requires forall i :: 0 <= i < |st| ==> Kept(word, st[i])
    ensures TidyName(CollapseSpaces(st), word)
  {
    CollapseKeptChars(st, word);
    if |st| > 0 {
      CollapseEndsUnpadded(st);
    }
  }

  lemma StripKeptChars(s: string, word: char -> bool)
    requires forall i :: 0 <= i < |s| ==> Kept(word, s[i])
    ensures forall i :: 0 <= i < |Strip(s)| ==> Kept(word, Strip(s)[i])
  {
    StripLeftKeptChars(s, word);
    StripRightKeptChars(StripLeft(s), word);
  }

  lemma StripLeftKeptChars(s: string, word: char -> bool)
    requires forall i :: 0 <= i < |s| ==> Kept(word, s[i])
    ensures forall i :: 0 <= i < |StripLeft(s)| ==> Kept(word, StripLeft(s)[i])
  {
    var l := StripLeft(s);
    assert forall i :: 0 <= i < |l| ==> l[i] == s[|s| - |l| + i];
  }

  lemma StripRightKeptChars(s: string, word: char -> bool)
    requires forall i :: 0 <= i < |s| ==> Kept(word, s[i])
    ensures forall i :: 0 <= i < |StripRight(s)| ==> Kept(word, StripRight(s)[i])
  {
    var r := StripRight(s);
    assert forall i :: 0 <= i < |r| ==> r[i] == s[i];
  }

  /** Collapsing brings in no character other than a space. */
  lemma {:induction false} CollapseKeptChars(s: string, word: char -> bool)
    requires forall i :: 0 <= i < |s| ==> Kept(word, s[i])
    ensures forall i :: 0 <= i < |CollapseSpaces(s)| ==> Kept(word, CollapseSpaces(s)[i])
    decreases |s|
  {
    if |s| > 0 {
      if IsSpace(s[0]) {
        var t := StripLeft(s[1..]);
        assert forall i :: 0 <= i < |t| ==> t[i] == s[|s| - |t| + i];
        CollapseKeptChars(t, word);
        assert Kept(word, ' ');
      } else {
        CollapseKeptChars(s[1..], word);
      }
    }
  }

  /** A text that ends in a non-space character still does once collapsed. */
  lemma {:induction false} CollapseEndsUnpadded(s: string)
    requires |s| > 0 && !IsSpace(s[|s| - 1])
    ensures |CollapseSpaces(s)| > 0 && !IsSpace(CollapseSpaces(s)[|CollapseSpaces(s)| - 1])
    decreases |s|
  {
    if IsSpace(s[0]) {
      var s1 := s[1..];
      var t := StripLeft(s1);
      assert s1[|s1| - 1] == s[|s| - 1];
      assert |t| > 0 && t[|t| - 1] == s[|s| - 1];
      CollapseEndsUnpadded(t);
    } else if |s| > 1 {
      assert s[1..][|s| - 2] == s[|s| - 1];
      CollapseEndsUnpadded(s[1..]);
    }
  }

  /**
   * Symbols are removed after the whitespace was tidied, so a leading
   * symbol leaves a leading space behind: "★ Inn" becomes " Inn".
   */
  lemma LeadingSymbolLeavesSpace(t: string, word: char -> bool)
    requires t == "★ Inn"
    requires !word('★') && word('I') && word('n')
    ensures CleanHotelName(t, word) == " Inn"
  {
    StarInnTidy(t);
    StarInnFiltered(t, word);
  }

  lemma StarInnTidy(t: string)
    requires t == "★ Inn"
    ensures CollapseSpaces(Strip(t)) == t
  {
    StripUnpadded(t);
    CollapseSingleSpaces(t);
  }

  lemma StarInnFiltered(t: string, word: char -> bool)
    requires t == "★ Inn"
    requires !word('★') && word('I') && word('n')
    ensures RemoveWhere(t, Dropped(word)) == " Inn"
  {
    var d := Dropped(word);
    assert d('★') && !d(' ') && !d('I') && !d('n');
    assert t[1..] == " Inn";
    RemoveWhereNone(" Inn", d);
  }
}
