/**
 * Extraction over an abstract results page. The HTML parser and CSS
 * selector engine are not modelled: a card is what `select_one` finds for
 * each selector (the element's `get_text(strip=True)` and its `href`), and
 * a page is what `select` finds for each selector.
 */
module Extraction {
  import opened Basics
  import opened Text

  /** An element found by a selector: its stripped text and its `href` attribute, if any. */
  datatype Element = Element(text: string, href: Option<string>)

  /** `card.select_one(selector)` for every selector: a missing key means no element. */
  type Card = map<string, Element>

  /** `soup.select(selector)` for every selector: a missing key means no match. */
  type Page = map<string, seq<Card>>

  /** Whether `select_one(sel)` finds an element with non-empty text. */
  predicate HasText(card: Card, sel: string) {
    sel in card && card[sel].text != ""
  }

  /**
   * The index of the first selector whose element exists and has
   * non-empty text (an element is always truthy; its text must be too).
   */
  function FirstTextIndex(card: Card, selectors: seq<string>): (r: Option<nat>)
    ensures r.Some? ==> r.value < |selectors| && HasText(card, selectors[r.value])
    ensures r.Some? ==> forall j :: 0 <= j < r.value ==> !HasText(card, selectors[j])
    ensures r.None? ==> forall j :: 0 <= j < |selectors| ==> !HasText(card, selectors[j])
  {
    if |selectors| == 0 then None
    else if HasText(card, selectors[0]) then Some(0)
    else match FirstTextIndex(card, selectors[1..])
      case None => None
      case Some(k) => Some(k + 1)
  }

  /**
   * `EnhancedScraperService._extract_text` and
   * `BookingScraper._extract_hotel_name`: the text of the first selector
   * that yields non-empty text.
   */
  function ExtractText(card: Card, selectors: seq<string>): (r: Option<string>)
    ensures r.Some? ==> r.value != ""
    ensures r.Some? <==> exists j :: 0 <= j < |selectors| && HasText(card, selectors[j])
  {
    match FirstTextIndex(card, selectors)
    case None => None
    case Some(k) => Some(card[selectors[k]].text)
  }

  /** Asking further selectors changes nothing once an earlier one yielded text. */
  lemma ExtractTextPrefix(card: Card, selectors: seq<string>, more: seq<string>)
    requires ExtractText(card, selectors).Some?
    ensures ExtractText(card, selectors + more) == ExtractText(card, selectors)
  {
    var k := FirstTextIndex(card, selectors).value;
    FirstTextIndexPrefix(card, selectors, more, k);
  }

  lemma {:induction false} FirstTextIndexPrefix(card: Card, selectors: seq<string>, more: seq<string>, k: nat)
    requires FirstTextIndex(card, selectors) == Some(k)
    ensures FirstTextIndex(card, selectors + more) == Some(k)
    decreases |selectors|
  {
    assert (selectors + more)[0] == selectors[0];
    if k > 0 {
      FirstTextIndexPrefix(card, selectors[1..], more, k - 1);
      assert (selectors + more)[1..] == selectors[1..] + more;
    }
  }

  /** `BookingScraper._find_hotel_cards`: the cards of the first selector that finds any, else none. */
  function FindHotelCards(page: Page, selectors: seq<string>): (cards: seq<Card>)
    ensures |cards| > 0 ==> exists j :: 0 <= j < |selectors| && selectors[j] in page && cards == page[selectors[j]]
    ensures |cards| == 0 ==> forall j :: 0 <= j < |selectors| && selectors[j] in page ==> page[selectors[j]] == []
  {
    if |selectors| == 0 then []
    else if selectors[0] in page && |page[selectors[0]]| > 0 then page[selectors[0]]
    else
      var rest := FindHotelCards(page, selectors[1..]);
      assert |rest| > 0 ==> exists j :: 1 <= j < |selectors| && selectors[j] in page && rest == page[selectors[j]] by {
        if |rest| > 0 {
          var j :| 0 <= j < |selectors[1..]| && selectors[1..][j] in page && rest == page[selectors[1..][j]];
          assert selectors[j + 1] == selectors[1..][j];
        }
      }
      rest
  }

  /** A selector that finds cards wins over every later one. */
  lemma {:induction false} FindHotelCardsFirst(page: Page, selectors: seq<string>, k: nat)
    requires k < |selectors| && selectors[k] in page && |page[selectors[k]]| > 0
    requires forall j :: 0 <= j < k ==> selectors[j] !in page || page[selectors[j]] == []
    ensures FindHotelCards(page, selectors) == page[selectors[k]]
    decreases k
  {
    if k > 0 {
      FindHotelCardsFirst(page, selectors[1..], k - 1);
    }
  }

  /** What the browser did for a search address: the page did not load, no result appeared, or the page. */
  datatype PageOutcome = LoadFailed | NoResults | Loaded(page: Page)
}
