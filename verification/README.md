# Product-page extraction model

A Dafny model of the per-page extraction in `index.mjs` of a small scraper.
The scraper loads a page, parses it, and picks a set of CSS selectors by the
page's hostname. It then builds one record per page: title, publish date,
main image, image count, and a list of *product blocks*. Each block counts
its images and description words and lists one *buy link* per nested anchor.
A buy link carries the first `$`/`€` price in the anchor text and the
anchor's `href` when it starts with `http`.

The parsed document is abstract. A `Page.Document` answers one question: which
elements a selector string picks, in document order. Selector strings are
opaque. An element gives its text, its attributes, its number of nested
`img` elements, and its nested anchors.

Modules:

- `Wrappers` (`wrappers.dfy`): `Option`, which stands for `null`/absent.
- `JsText` (`jstext.dfy`): the JavaScript whitespace class, `trim`,
  `split(/\s+/)`, `startsWith`, and the description word count. A reference
  word count (maximal non-whitespace runs) is proved equal to the split-based
  one.
- `PriceScan` (`pricescan.dfy`): a hand-written leftmost match for the pattern
  `(\$|€)(\d+(\.\d+)?)`. It is proved against a declarative definition of the
  pattern's language: the match is leftmost and longest, and it is the only
  such match.
- `Products` (`products.dfy`): buy links and product blocks, which are the
  bodies of `extractProductsCNN` and `extractProductsGeneric`.
- `Page` (`page.dfy`): the falsy-coalescing fallback chains, the hostname
  dispatch (written both as the source's `switch` and as a table, and proved
  equal), and the record that `scrapeUrl` assembles.

Details of the code that the model keeps:

- Only `div` elements with `data-type="product"` are CNN products, because
  the selector is `div[data-type="product"]`.
- The price pattern runs on the untrimmed `$(link).text()`.
  `Products.BuyLinkIgnoresSurroundingWhitespace` proves that trimming first
  gives the same buy link.
- `$('time').attr('datetime')` reads the `datetime` attribute of the first
  `time` element only.
- Empty or all-whitespace text has description length 1, because splitting
  `""` yields one empty piece.

## Model

| member | source | states |
|---|---|---|
| JsText.StartsWith | index.mjs:25 | `startsWith` holds exactly when the prefix is no longer than the string and agrees with it character by character |
| JsText.Trim | index.mjs:15 | `trim` gives the slice after the leading whitespace that neither starts nor ends with whitespace and is followed only by whitespace |
| JsText.TrimEmptyIff | index.mjs:15 | text trims to `""` exactly when it is all whitespace |
| JsText.SplitWhitespace | index.mjs:15 | `split(/\s+/)` yields at least one piece; no piece holds whitespace; only the first and last piece can be empty; text that starts with a non-space gives a non-empty first piece |
| JsText.SplitCountsWords | index.mjs:15 | for text ending in a non-space, the number of split pieces is the number of words, plus one when the text starts with whitespace |
| JsText.TrimKeepsWords | index.mjs:15 | trimming keeps the number of maximal non-whitespace runs |
| JsText.DescriptionLength | index.mjs:44 | `text.trim().split(/\s+/).length` is at least 1 and equals the number of maximal non-whitespace runs, or 1 when there are none |
| JsText.DescriptionLengthCountsWords | index.mjs:44 | `text.trim().split(/\s+/).length` is at least 1; it equals the number of maximal non-whitespace runs, or 1 when there are none, i.e. when the text is all whitespace |
| PriceScan.DigitsEnd | index.mjs:20 | greedy `\d+` stops at the first non-digit, and everything it passed is a digit |
| PriceScan.TokenStartIff | index.mjs:20 | the pattern can match at a position exactly when a `$` or `€` there is directly followed by a digit |
| PriceScan.MatchAt | index.mjs:20 | the match at a position exists exactly when the pattern can match there; it is a price token, and no longer token starts at that position |
| PriceScan.FindPriceFrom | index.mjs:20 | the search from a position finds nothing exactly when no match starts at or after it; otherwise it finds a token at the first start position, and no longer token starts there |
| PriceScan.FindPrice | index.mjs:49 | `text.match(...)` fails exactly when no match exists; otherwise the match is a price token, leftmost, and longest at its start |
| PriceScan.FindPriceUnique | index.mjs:20 | any leftmost, longest token is the one `match` returns, so the result is fully determined by the pattern's meaning |
| PriceScan.FindPriceIgnoresPadding | index.mjs:20 | whitespace around the text does not change whether a price is found; a found price lies inside the unpadded part and is the same substring |
| Products.HttpUrl | index.mjs:19-25 | `url` is the `href` exactly when the `href` is present and starts with `http`; a missing `href` (treated as `""`) or one that does not start with `http` gives `null` |
| Products.ExtractBuyLink | index.mjs:18-27 | `price` and `currency` are both null or both set; they are null exactly when the text has no price; a set price is the leftmost, longest token in the text; the currency is `$` or `€` and begins the price; `url` follows the `http` prefix rule |
| Products.BuyLinkIgnoresSurroundingWhitespace | index.mjs:20 | trimming the anchor text before matching would give the same buy link |
| Products.ExtractBuyLinks | index.mjs:46-56 | one buy link per anchor, in anchor order |
| Products.ExtractBlock | index.mjs:43-63 | `images` is the element's image count; `buyLinksCount` equals the number of buy links, which is one per anchor in order; `descriptionLength` is at least 1 and equals the word count, or 1 for text with no words |
| Products.ExtractBlocks | index.mjs:42-64 | one product block per selected element, in document order |
| Page.FirstTruthy | index.mjs:74-76 | a chain of JavaScript `or` operators ending in `null` is null exactly when every candidate is absent or `""`; otherwise it is the first candidate that is present and non-empty, and never `""` |
| Page.CoalesceIdempotent | index.mjs:123-125 | coalescing an already coalesced value to `null` again changes nothing; the record assembly relies on it for the date and image |
| Page.ExtractProductsGeneric | index.mjs:40-66 | one block per element the selector picks, in document order |
| Page.ExtractProductsCNN | index.mjs:11-37 | one block per element `div[data-type="product"]` picks, in document order |
| Page.CnnExtractorIsGeneric | index.mjs:11-66 | the CNN extractor equals the generic extractor at the CNN selector |
| Page.Heading | index.mjs:73 | the title is the first `h1` text with its leading whitespace run removed and only whitespace after it, neither starting nor ending with whitespace; it is `""` exactly when there is no `h1` or its text is all whitespace |
| Page.ExtractByDomain | index.mjs:69-111 | for every hostname and document, the `switch` gives the same result as the hostname table (product selector, ordered date candidates, ordered image candidates) |
| Page.OtherHostsGetDefault | index.mjs:103-109 | any hostname other than the three named ones gets selector `.product, article, section`, date from `time`'s `datetime` only, and image from the first `img`'s `src` only |
| Page.OtherHostPage | index.mjs:104-108 | on such a host the record's date and main image are those single attributes when non-empty, otherwise null, and its products come from the default selector |
| Page.NoSelectionNoProducts | index.mjs:127-128 | when the active selector picks nothing, `products` is empty and `totalProducts` is 0 |
| Page.CnnProductsOnlyFromDataType | index.mjs:13 | CNN products depend only on what `div[data-type="product"]` picks, whatever class names the page uses |
| Page.ScrapePage | index.mjs:118-129 | `totalProducts` equals the number of products; `totalImages` counts every `img`; products, date and image follow the hostname's table entry; the title is the trimmed first `h1`, and null when that is empty; title, date and image are never `""` |

## Left out

- Browser launch, navigation, `page.content()` and the second `page.goto` in `scrapeUrl` (index.mjs:113-115, 139-150): browser I/O in a foreign library.
- The stdin wait for CAPTCHA solving and the 15-second `sleep` (index.mjs:6, 152-157): human input and timers.
- Writing `results.json` and the JSON serialisation (index.mjs:166): output only.
- HTML parsing and the CSS selector engine (index.mjs:2, 116): the document is a parameter mapping selector strings to elements. An element's image count and anchors are given with it; their consistency with the rest of the document is not modelled.
- `new URL(url).hostname` (index.mjs:118): the hostname is a parameter.
- The per-URL `try`/`catch`, the results map and the argument check (index.mjs:133-162): orchestration only.
- Re-running extraction on the same page giving the same record: every member is a pure function, so this holds by construction and needs no lemma.
- JsText.IsWhitespace: spelled out as ECMAScript's WhiteSpace and LineTerminator code points for the Unicode version the model was written against. Later Unicode additions to the space-separator category are not tracked. No proof depends on the table except that `$`, `€`, `.` and the digits are not in it.
- UTF-16: strings are sequences of code points rather than UTF-16 code units. Every character the pattern and the whitespace class inspect is a single code unit, so the results do not change.
