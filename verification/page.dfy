/**
 * Page-level extraction: `extractByDomain` and the record `scrapeUrl` builds
 * from it in `index.mjs`. The parsed document is abstract: all the extractor
 * asks of it is the list of elements a selector picks, in document order.
 */
module Page {
  import opened Wrappers
  import opened JsText
  import opened Products

  /** A parsed page: `$(selector)` as the sequence of matching elements. Selector strings are opaque. */
  datatype Document = Document(select: string -> seq<Element>)

  /** `$(selector).first().text()`: the first match's text, or `""` when nothing matches. */
  function FirstText(doc: Document, selector: string): string {
    var els := doc.select(selector);
    if els == [] then "" else els[0].text
  }

  /**
   * `$(selector).attr(name)`, which is also `$(selector).first().attr(name)`:
   * the attribute of the FIRST match only, absent when nothing matches or the
   * first match lacks it.
   */
  function FirstAttr(doc: Document, selector: string, name: string): Option<string> {
    var els := doc.select(selector);
    if els != [] && name in els[0].attrs then Some(els[0].attrs[name]) else None
  }

  /** One link of a fallback chain: an attribute of the first element a selector picks. */
  datatype Candidate = Candidate(selector: string, attribute: string)

  function Lookup(doc: Document, c: Candidate): Option<string> {
    FirstAttr(doc, c.selector, c.attribute)
  }

  /** The candidates' values, in chain order. */
  function Lookups(doc: Document, cs: seq<Candidate>): (r: seq<Option<string>>)
    ensures |r| == |cs|
    ensures forall i :: 0 <= i < |cs| ==> r[i] == Lookup(doc, cs[i])
  {
    if cs == [] then [] else [Lookup(doc, cs[0])] + Lookups(doc, cs[1..])
  }

  /** JavaScript truthiness of an optional string: present and not `""`. */
  predicate Truthy(v: Option<string>) {
    v.Some? && v.value != ""
  }

  /** `v0 || v1 || ... || null`: the first truthy value of the chain, else `null`. */
  function FirstTruthy(vs: seq<Option<string>>): (r: Option<string>)
    ensures r.None? <==> forall i :: 0 <= i < |vs| ==> !Truthy(vs[i])
    ensures r.Some? ==> r.value != ""
    ensures r.Some? ==> exists i :: 0 <= i < |vs| && vs[i] == r && forall j :: 0 <= j < i ==> !Truthy(vs[j])
  {
    if vs == [] then None
    else if Truthy(vs[0]) then vs[0]
    else
      var r := FirstTruthy(vs[1..]);
      assert forall i :: 1 <= i < |vs| ==> vs[i] == vs[1..][i - 1];
      r
  }

  /** Applying `|| null` again to a coalesced value changes nothing, which is why `scrapeUrl`'s second coalescing of the date and image is harmless. */
  lemma CoalesceIdempotent(vs: seq<Option<string>>)
    ensures FirstTruthy([FirstTruthy(vs)]) == FirstTruthy(vs)
  {
  }

  /** The per-host configuration that the `switch` in `extractByDomain` hard-codes. */
  datatype DomainConfig = DomainConfig(productSelector: string, dateCandidates: seq<Candidate>, imageCandidates: seq<Candidate>)

  const CnnHost := "edition.cnn.com"
  const MashableHost := "mashable.com"
  const NytimesHost := "www.nytimes.com"

  const CnnProductSelector := "div[data-type=\"product\"]"
  const MagazineProductSelector := ".product, [class*=\"Product\"], section"
  const DefaultProductSelector := ".product, article, section"

  const TimeDatetime := Candidate("time", "datetime")
  const OgImage := Candidate("meta[property=\"og:image\"]", "content")

  const CnnConfig := DomainConfig(
    CnnProductSelector,
    [Candidate("meta[name=\"pubdate\"]", "content"),
     Candidate("meta[property=\"article:published_time\"]", "content"),
     TimeDatetime],
    [Candidate("picture img", "src"), OgImage])

  const MashableConfig := DomainConfig(
    MagazineProductSelector,
    [Candidate("meta[property=\"article:published_time\"]", "content"), TimeDatetime],
    [Candidate("figure img", "src"), OgImage])

  const NytimesConfig := DomainConfig(
    MagazineProductSelector,
    [Candidate("meta[name=\"ptime\"]", "content"),
     Candidate("meta[property=\"article:published\"]", "content"),
     TimeDatetime],
    [Candidate("figure img", "src"), OgImage])

  const DefaultConfig := DomainConfig(
    DefaultProductSelector,
    [TimeDatetime],
    [Candidate("img", "src")])

  /** The dispatch table keyed by hostname, with a default entry. */
  function ConfigFor(host: string): DomainConfig {
    if host == CnnHost then CnnConfig
    else if host == MashableHost then MashableConfig
    else if host == NytimesHost then NytimesConfig
    else DefaultConfig
  }

  /** `extractProductsGeneric($, selector)`. */
  function ExtractProductsGeneric(doc: Document, selector: string): (r: seq<ProductBlock>)
    ensures |r| == |doc.select(selector)|
    ensures forall i :: 0 <= i < |r| ==> r[i] == ExtractBlock(doc.select(selector)[i])
  {
    ExtractBlocks(doc.select(selector))
  }

  /** `extractProductsCNN($)`: the same block builder with the selector written inline. */
  function ExtractProductsCNN(doc: Document): (r: seq<ProductBlock>)
    ensures |r| == |doc.select(CnnProductSelector)|
    ensures forall i :: 0 <= i < |r| ==> r[i] == ExtractBlock(doc.select(CnnProductSelector)[i])
  {
    var els := doc.select("div[data-type=\"product\"]");
    ExtractBlocks(els)
  }

  /** The CNN extractor is the generic one at the CNN selector. */
  lemma CnnExtractorIsGeneric(doc: Document)
    ensures ExtractProductsCNN(doc) == ExtractProductsGeneric(doc, CnnProductSelector)
  {
  }

  /** What `extractByDomain` returns, before `scrapeUrl` wraps it. */
  datatype BaseData = BaseData(title: string, date: Option<string>, mainImage: Option<string>, products: seq<ProductBlock>)

  /**
   * `$('h1').first().text().trim()`: the first heading's text with its
   * leading and trailing whitespace runs removed, and `""` when there is no
   * `h1` or its text is all whitespace.
   */
  function Heading(doc: Document): (r: string)
    ensures r == "" <==> doc.select("h1") == [] || AllWhitespace(doc.select("h1")[0].text)
    ensures r != "" ==> !IsWhitespace(r[0]) && !IsWhitespace(r[|r| - 1])
    ensures var t := FirstText(doc, "h1"); var a := LeadingWhitespace(t);
      a + |r| <= |t| && r == t[a..a + |r|] && AllWhitespace(t[a + |r|..])
  {
    var t := FirstText(doc, "h1");
    TrimEmptyIff(t);
    Trim(t)
  }

  /**
   * `extractByDomain(domain, $)`, branch by branch as the `switch` writes it.
   * Its contract says the `switch` is the hostname table: every hostname and
   * every document get what `ExtractWithConfig` computes from `ConfigFor`.
   */
  function ExtractByDomain(host: string, doc: Document): (r: BaseData)
    ensures r == ExtractWithConfig(ConfigFor(host), doc)
  {
    match host
    case "edition.cnn.com" =>
      LookupsOfThree(doc, CnnConfig.dateCandidates);
      LookupsOfTwo(doc, CnnConfig.imageCandidates);
      CnnExtractorIsGeneric(doc);
      BaseData(
        Heading(doc),
        FirstTruthy([FirstAttr(doc, "meta[name=\"pubdate\"]", "content"),
                     FirstAttr(doc, "meta[property=\"article:published_time\"]", "content"),
                     FirstAttr(doc, "time", "datetime")]),
        FirstTruthy([FirstAttr(doc, "picture img", "src"),
                     FirstAttr(doc, "meta[property=\"og:image\"]", "content")]),
        ExtractProductsCNN(doc))
    case "mashable.com" =>
      LookupsOfTwo(doc, MashableConfig.dateCandidates);
      LookupsOfTwo(doc, MashableConfig.imageCandidates);
      BaseData(
        Heading(doc),
        FirstTruthy([FirstAttr(doc, "meta[property=\"article:published_time\"]", "content"),
                     FirstAttr(doc, "time", "datetime")]),
        FirstTruthy([FirstAttr(doc, "figure img", "src"),
                     FirstAttr(doc, "meta[property=\"og:image\"]", "content")]),
        ExtractProductsGeneric(doc, ".product, [class*=\"Product\"], section"))
    case "www.nytimes.com" =>
      LookupsOfThree(doc, NytimesConfig.dateCandidates);
      LookupsOfTwo(doc, NytimesConfig.imageCandidates);
      BaseData(
        Heading(doc),
        FirstTruthy([FirstAttr(doc, "meta[name=\"ptime\"]", "content"),
                     FirstAttr(doc, "meta[property=\"article:published\"]", "content"),
                     FirstAttr(doc, "time", "datetime")]),
        FirstTruthy([FirstAttr(doc, "figure img", "src"),
                     FirstAttr(doc, "meta[property=\"og:image\"]", "content")]),
        ExtractProductsGeneric(doc, ".product, [class*=\"Product\"], section"))
    case _ =>
      assert Lookups(doc, ConfigFor(host).dateCandidates) == [Lookup(doc, ConfigFor(host).dateCandidates[0])];
      assert Lookups(doc, ConfigFor(host).imageCandidates) == [Lookup(doc, ConfigFor(host).imageCandidates[0])];
      BaseData(
        Heading(doc),
        FirstTruthy([FirstAttr(doc, "time", "datetime")]),
        FirstTruthy([FirstAttr(doc, "img", "src")]),
        ExtractProductsGeneric(doc, ".product, article, section"))
  }

  /** Extraction driven by a table entry instead of a `switch` branch. */
  function ExtractWithConfig(cfg: DomainConfig, doc: Document): BaseData {
    BaseData(
      Heading(doc),
      FirstTruthy(Lookups(doc, cfg.dateCandidates)),
      FirstTruthy(Lookups(doc, cfg.imageCandidates)),
      ExtractProductsGeneric(doc, cfg.productSelector))
  }

  lemma LookupsOfTwo(doc: Document, cs: seq<Candidate>)
    requires |cs| == 2
    ensures Lookups(doc, cs) == [Lookup(doc, cs[0]), Lookup(doc, cs[1])]
  {
  }

  lemma LookupsOfThree(doc: Document, cs: seq<Candidate>)
    requires |cs| == 3
    ensures Lookups(doc, cs) == [Lookup(doc, cs[0]), Lookup(doc, cs[1]), Lookup(doc, cs[2])]
  {
  }

  /** Every hostname other than the three named ones gets the default entry. */
  lemma OtherHostsGetDefault(host: string)
    requires host != CnnHost && host != MashableHost && host != NytimesHost
    ensures ConfigFor(host).productSelector == ".product, article, section"
    ensures ConfigFor(host).dateCandidates == [Candidate("time", "datetime")]
    ensures ConfigFor(host).imageCandidates == [Candidate("img", "src")]
  {
  }

  /** The record `scrapeUrl` returns for one page. */
  datatype PageRecord = PageRecord(
    title: Option<string>,
    date: Option<string>,
    mainImage: Option<string>,
    totalImages: nat,
    totalProducts: nat,
    products: seq<ProductBlock>)

  /** The record assembly of `scrapeUrl`, given the hostname of the page's URL and the parsed page. */
  function ScrapePage(host: string, doc: Document): (r: PageRecord)
    ensures r.totalProducts == |r.products|
    ensures r.totalImages == |doc.select("img")|
    ensures r.products == ExtractProductsGeneric(doc, ConfigFor(host).productSelector)
    ensures r.title.None? <==> Heading(doc) == ""
    ensures r.title.Some? ==> r.title.value == Heading(doc)
    ensures r.date == FirstTruthy(Lookups(doc, ConfigFor(host).dateCandidates))
    ensures r.mainImage == FirstTruthy(Lookups(doc, ConfigFor(host).imageCandidates))
    ensures r.title != Some("") && r.date != Some("") && r.mainImage != Some("")
  {
    var base := ExtractByDomain(host, doc);
    CoalesceIdempotent(Lookups(doc, ConfigFor(host).dateCandidates));
    CoalesceIdempotent(Lookups(doc, ConfigFor(host).imageCandidates));
    var products := base.products;
    PageRecord(
      FirstTruthy([Some(base.title)]),
      FirstTruthy([base.date]),
      FirstTruthy([base.mainImage]),
      |doc.select("img")|,
      |products|,
      products)
  }

  /** A page on which the active selector picks nothing has no products. */
  lemma NoSelectionNoProducts(host: string, doc: Document)
    requires doc.select(ConfigFor(host).productSelector) == []
    ensures ScrapePage(host, doc).products == []
    ensures ScrapePage(host, doc).totalProducts == 0
  {
  }

  /**
   * On an unlisted host the date is the first `time` element's `datetime`, the
   * main image the first `img`'s `src` (each `null` when absent or empty), and
   * the products come from `.product, article, section`.
   */
  lemma OtherHostPage(host: string, doc: Document)
    requires host != CnnHost && host != MashableHost && host != NytimesHost
    ensures var r := ScrapePage(host, doc);
      && r.date == (if Truthy(FirstAttr(doc, "time", "datetime")) then FirstAttr(doc, "time", "datetime") else None)
      && r.mainImage == (if Truthy(FirstAttr(doc, "img", "src")) then FirstAttr(doc, "img", "src") else None)
      && r.products == ExtractBlocks(doc.select(".product, article, section"))
  {
    OtherHostsGetDefault(host);
    var cfg := ConfigFor(host);
    assert Lookups(doc, cfg.dateCandidates) == [FirstAttr(doc, "time", "datetime")];
    assert Lookups(doc, cfg.imageCandidates) == [FirstAttr(doc, "img", "src")];
  }

  /**
   * On CNN pages the products depend on the `div[data-type="product"]`
   * selection alone: two documents that agree on it agree on the products,
   * whatever else (class names included) they contain.
   */
  lemma CnnProductsOnlyFromDataType(doc1: Document, doc2: Document)
    requires doc1.select(CnnProductSelector) == doc2.select(CnnProductSelector)
    ensures ScrapePage(CnnHost, doc1).products == ScrapePage(CnnHost, doc2).products
    ensures ScrapePage(CnnHost, doc1).products == ExtractBlocks(doc1.select(CnnProductSelector))
  {
  }
}
