/**
 * `extractSuperChatAmount`, `extractSuperStickerAmount` and `extractMembershipInfo`: find
 * the element that shows an amount, and append the converted amount to its text once.
 */
module Annotation {
  import opened Wrappers
  import opened Text
  import opened ExchangeRate
  import opened Amount
  import opened Dom

  /** What an extract function leaves in the amount element and what it returns. */
  datatype Outcome = Outcome(text: string, amount: Option<string>)

  /**
   * The work of an extract function once the amount element is found, given the
   * element's text: the trimmed text is returned; unless the text already carries the
   * marker, it is converted, and a non-empty answer is written back after the trimmed
   * text between the marker and the closing bracket. A throw from the conversion is caught:
   * the text stays as it is and the function returns `null`.
   */
  function AnnotateText(text: string, cache: Option<RateTable>): (o: Outcome) {
    var amount := Trim(text);
    if Contains(text, Marker) then Outcome(text, Some(amount))
    else
      match HandleRate(Text(amount), cache)
      case Throw => Outcome(text, None)
      case Normal(r) => Outcome(if r == "" then text else amount + Marker + r + Closing, Some(amount))
  }

  /** An annotated text carries the marker. */
  lemma AnnotatedCarriesMarker(amount: string, r: string)
    ensures Contains(amount + Marker + r + Closing, Marker)
  {
    ContainsJoin(amount, Marker, r + Closing);
    assert amount + Marker + r + Closing == amount + Marker + (r + Closing);
  }

  /**
   * Annotating twice leaves the same text as annotating once. A second pass over an
   * annotated text returns the whole annotation as the amount.
   */
  lemma AnnotateIdempotent(text: string, cache: Option<RateTable>)
    ensures var once := AnnotateText(text, cache);
            AnnotateText(once.text, cache).text == once.text
    ensures var once := AnnotateText(text, cache);
            once.text != text ==> AnnotateText(once.text, cache).amount == Some(once.text)
  {
    var once := AnnotateText(text, cache);
    if once.text != text {
      var amount := Trim(text);
      var r := HandleRate(Text(amount), cache).value;
      AnnotatedCarriesMarker(amount, r);
      assert once.text == amount + Marker + r + Closing;
      TrimOfAnnotation(amount, r);
    }
  }

  /** Trimming an annotation gives it back whole: it ends in the closing bracket. */
  lemma TrimOfAnnotation(amount: string, r: string)
    requires amount == [] || (!IsSpace(amount[0]) && !IsSpace(amount[|amount| - 1]))
    ensures Trim(amount + Marker + r + Closing) == amount + Marker + r + Closing
  {
    var t := amount + Marker + r + Closing;
    assert !IsSpace(t[0]) && !IsSpace(t[|t| - 1]) by {
      assert t[|t| - 1] == Closing[0];
      assert !IsSpace(Closing[0]);
      if amount == [] {
        assert t[0] == Marker[0];
        assert !IsSpace(Marker[0]);
      } else {
        assert t[0] == amount[0];
      }
    }
    TrimOfUnpadded(t);
  }

  /** The text is rewritten exactly when it has no marker yet and the conversion answers. */
  lemma AnnotateChangesText(text: string, cache: Option<RateTable>)
    ensures var r := HandleRate(Text(Trim(text)), cache);
            AnnotateText(text, cache).text != text <==>
              !Contains(text, Marker) && r.Normal? && r.value != ""
    ensures var r := HandleRate(Text(Trim(text)), cache);
            AnnotateText(text, cache).text != text ==>
              AnnotateText(text, cache).text == Trim(text) + Marker + r.value + Closing
  {
    var r := HandleRate(Text(Trim(text)), cache);
    if !Contains(text, Marker) && r.Normal? && r.value != "" {
      AnnotatedCarriesMarker(Trim(text), r.value);
    }
  }

  /** An extract function returns the trimmed text; when it returns `null` it wrote nothing. */
  lemma AnnotateReturnsTrimmed(text: string, cache: Option<RateTable>)
    ensures var o := AnnotateText(text, cache);
            o.amount.Some? ==> o.amount.value == Trim(text)
    ensures var o := AnnotateText(text, cache);
            o.amount.None? ==> o.text == text
  {
  }

  /**
   * An extract function returns `null` exactly when the conversion threw: the text has no
   * marker, it parses to a positive amount, and the rate cache is undefined.
   */
  lemma AnnotateReturnsNull(text: string, cache: Option<RateTable>)
    ensures AnnotateText(text, cache).amount.None? <==>
              !Contains(text, Marker) && cache.None? && ParseArgument(Text(Trim(text))).Parsed?
  {
    HandleRateOutcomes(Text(Trim(text)), cache);
  }

  /** A recognised amount in a currency the cache does not know is annotated with the failure text. */
  lemma UnknownCurrencyAnnotated(text: string, rates: RateTable)
    requires !Contains(text, Marker)
    requires ParseAmount(Trim(text)).Parsed?
    requires ParseAmount(Trim(text)).code !in rates
    ensures AnnotateText(text, Some(rates)).text == Trim(text) + Marker + ConversionFailed + Closing
  {
    var amount := Trim(text);
    var p := ParseAmount(amount);
    assert ParseArgument(Text(amount)) == p by {
      TrimIdempotent(text);
    }
    assert Convert(Some(rates), p.code, p.hundredths) == Normal(None);
    HandleRateOutcomes(Text(amount), Some(rates));
  }

  /** The element `extractSuperChatAmount` writes: `#card`, then `#purchase-amount`, then `yt-formatted-string`. */
  function SuperChatAmountElement(message: Node): Node? {
    var card := QuerySelector(message, Id("card"));
    if card == null then null
    else
      var purchaseAmount := QuerySelector(card, Id("purchase-amount"));
      if purchaseAmount == null then null
      else QuerySelector(purchaseAmount, Tag("yt-formatted-string"))
  }

  /** The element `extractSuperStickerAmount` writes: `#purchase-amount-chip`. */
  function StickerAmountElement(message: Node): Node? {
    QuerySelector(message, Id("purchase-amount-chip"))
  }

  /** The element `extractMembershipInfo` reads: `#header-subtext`. */
  function MembershipHeader(message: Node): Node? {
    QuerySelector(message, Id("header-subtext"))
  }

  /** The nodes a write to `e` may touch: none when it is `null`. */
  function Footprint(e: Node?): set<Node> {
    if e == null then {} else {e}
  }

  /** The common tail of both extract functions, on the amount element they found. */
  method AnnotateElement(e: Node, rates: RateCache) returns (amount: Option<string>)
    modifies e
    ensures var o := AnnotateText(old(e.textContent), rates.rates);
            e.textContent == o.text && amount == o.amount
  {
    var text := e.textContent;
    var trimmed := Trim(text);
    if !Contains(text, Marker) {
      var renminbi := HandleRate(Text(trimmed), rates.rates);
      if renminbi.Throw? {
        return None;
      }
      if renminbi.value != "" {
        e.textContent := trimmed + Marker + renminbi.value + Closing;
      }
    }
    amount := Some(trimmed);
  }

  /**
   * `extractSuperChatAmount(message)`: `null` and no write when an element on the path is
   * missing; otherwise the annotation step on the `yt-formatted-string` element.
   */
  method ExtractSuperChatAmount(message: Node, rates: RateCache) returns (amount: Option<string>)
    modifies Footprint(SuperChatAmountElement(message))
    ensures SuperChatAmountElement(message) == null ==> amount.None?
    ensures var e := SuperChatAmountElement(message);
            e != null ==>
              var o := AnnotateText(old(e.textContent), rates.rates);
              e.textContent == o.text && amount == o.amount
  {
    var e := SuperChatAmountElement(message);
    if e == null {
      return None;
    }
    amount := AnnotateElement(e, rates);
  }

  /**
   * `extractSuperStickerAmount(message)`: `null` and no write without a
   * `#purchase-amount-chip`; otherwise the annotation step on it.
   */
  method ExtractSuperStickerAmount(message: Node, rates: RateCache) returns (amount: Option<string>)
    modifies Footprint(StickerAmountElement(message))
    ensures StickerAmountElement(message) == null ==> amount.None?
    ensures var e := StickerAmountElement(message);
            e != null ==>
              var o := AnnotateText(old(e.textContent), rates.rates);
              e.textContent == o.text && amount == o.amount
  {
    var e := StickerAmountElement(message);
    if e == null {
      return None;
    }
    amount := AnnotateElement(e, rates);
  }

  /** `extractMembershipInfo(message)`: the trimmed header text, or `null`; it writes nothing. */
  method ExtractMembershipInfo(message: Node) returns (info: Option<string>)
    ensures var h := MembershipHeader(message);
            info == if h == null then None else Some(Trim(h.textContent))
  {
    var h := MembershipHeader(message);
    if h != null {
      return Some(Trim(h.textContent));
    }
    return None;
  }
}
