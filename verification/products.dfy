/**
 * Product blocks: `extractProductsCNN` and `extractProductsGeneric` of
 * `index.mjs`. The selector engine is not modelled: a block is built from an
 * element the selector has already picked, given by its flattened text, its
 * number of nested `img` elements and its nested anchors in document order.
 */
module Products {
  import opened Wrappers
  import opened JsText
  import opened PriceScan

  /** A nested `a` element: its `href` attribute, if any, and its text. */
  datatype Anchor = Anchor(href: Option<string>, text: string)

  /**
   * An element of the parsed document: `$(el).text()`, its attributes,
   * `$(el).find('img').length` and `$(el).find('a')`.
   */
  datatype Element = Element(text: string, attrs: map<string, string>, imgCount: nat, anchors: seq<Anchor>)

  datatype BuyLink = BuyLink(price: Option<string>, currency: Option<string>, url: Option<string>)

  datatype ProductBlock = ProductBlock(images: nat, descriptionLength: nat, buyLinksCount: nat, buyLinks: seq<BuyLink>)

  /**
   * `href.startsWith('http') ? href : null` after `attr('href') || ''`: a
   * case-sensitive prefix test, not a check that the URL is absolute.
   */
  function HttpUrl(href: Option<string>): (r: Option<string>)
    ensures r.Some? <==> href.Some? && StartsWith(href.value, "http")
    ensures r.Some? ==> r == href
  {
    var h := href.GetOr("");
    if StartsWith(h, "http") then Some(h) else None
  }

  /** One buy link: the price and currency of the leftmost price match in the anchor text, and the `href` when it starts with `http`. */
  function ExtractBuyLink(a: Anchor): (r: BuyLink)
    ensures r.price.None? <==> r.currency.None?
    ensures r.price.None? <==> !HasPriceToken(a.text)
    ensures r.price.Some? ==> IsPriceToken(r.price.value) && IsLeftmostLongestMatch(r.price.value, a.text)
    ensures r.price.Some? ==> (r.currency.value == "$" || r.currency.value == "€") && StartsWith(r.price.value, r.currency.value)
    ensures r.url.Some? <==> a.href.Some? && StartsWith(a.href.value, "http")
    ensures r.url.Some? ==> r.url == a.href
  {
    var url := HttpUrl(a.href);
    match FindPrice(a.text)
    case Some(m) =>
      var price := a.text[m.start..m.end];
      var currency := a.text[m.start..m.start + 1];
      assert price[..1] == currency == [a.text[m.start]];
      assert IsLeftmostLongestMatch(price, a.text) by {
        assert a.text[m.start..m.end] == price;
      }
      BuyLink(Some(price), Some(currency), url)
    case None =>
      BuyLink(None, None, url)
  }

  /**
   * The pattern runs on the untrimmed `$(link).text()`; trimming the text
   * first would give the same buy link, because whitespace never takes part
   * in a match.
   */
  lemma BuyLinkIgnoresSurroundingWhitespace(a: Anchor)
    ensures ExtractBuyLink(a) == ExtractBuyLink(Anchor(a.href, Trim(a.text)))
  {
    var s := a.text;
    var r := Trim(s);
    var i := LeadingWhitespace(s);
    PaddedBuyLink(a.href, s, r, i, i + |r|);
  }

  lemma PaddedBuyLink(href: Option<string>, s: string, r: string, i: nat, j: nat)
    requires i <= j <= |s| && s[i..j] == r && AllWhitespace(s[..i]) && AllWhitespace(s[j..])
    ensures ExtractBuyLink(Anchor(href, s)) == ExtractBuyLink(Anchor(href, r))
  {
    FindPriceIgnoresPadding(s, i, j);
    if FindPrice(s).Some? {
      var m := FindPrice(s).value;
      var m' := FindPrice(r).value;
      assert r[m'.start..m'.end] == s[m.start..m.end];
      assert r[m'.start..m'.start + 1] == r[m'.start..m'.end][..1];
      assert s[m.start..m.start + 1] == s[m.start..m.end][..1];
    }
  }

  /** The `find('a').each` loop: one buy link per anchor, in document order. */
  function ExtractBuyLinks(anchors: seq<Anchor>): (r: seq<BuyLink>)
    ensures |r| == |anchors|
    ensures forall j :: 0 <= j < |anchors| ==> r[j] == ExtractBuyLink(anchors[j])
  {
    if anchors == [] then [] else [ExtractBuyLink(anchors[0])] + ExtractBuyLinks(anchors[1..])
  }

  /** The body of the `$(selector).each` callback: one product block for one element. */
  function ExtractBlock(el: Element): (r: ProductBlock)
    ensures r.images == el.imgCount
    ensures r.buyLinksCount == |r.buyLinks| == |el.anchors|
    ensures forall j :: 0 <= j < |el.anchors| ==> r.buyLinks[j] == ExtractBuyLink(el.anchors[j])
    ensures r.descriptionLength >= 1
    ensures r.descriptionLength == if CountWords(el.text) == 0 then 1 else CountWords(el.text)
  {
    var links := ExtractBuyLinks(el.anchors);
    ProductBlock(el.imgCount, DescriptionLength(el.text), |links|, links)
  }

  /** The `$(selector).each` loop: one product block per selected element, in document order. */
  function ExtractBlocks(els: seq<Element>): (r: seq<ProductBlock>)
    ensures |r| == |els|
    ensures forall i :: 0 <= i < |els| ==> r[i] == ExtractBlock(els[i])
  {
    if els == [] then [] else [ExtractBlock(els[0])] + ExtractBlocks(els[1..])
  }
}
