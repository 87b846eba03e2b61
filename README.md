# Product-listing scraper: a Dafny model of its crawler and extractors

The scraper exists in two nearly identical Python files:

- `Scrappy.py` is a Flask service.
- `amazon.py` is a script.

Both contain `parse_listing`, a pagination crawler. For a search-result page it:

1. takes the product links in page order and resolves each against the page URL;
2. skips every URL already in a module-global visited set;
3. marks each new URL visited *before* fetching it;
4. keeps the record that the file's `get_product_info` returns for that URL;
5. follows the "next page" link recursively and appends what that call returns.

Around the crawler sit the field extractors (`get_title`, `get_price`, and so on) and the product-record builders. The `Article` field bag that `scrape_product` fills in is modelled too.

This project models that core and proves what it promises:

- **`PyStr`** models Python's `str.strip()` and `str.replace(pat, "")`. Whitespace is the `str.isspace()` set.
- **`Html`, `Json`, `Http`** model the parsed document (selector → matching elements) and the JSON values and keys of the records. They also model `requests.get` as a fixed function from URL to "raised" or (status, document), and `raise_for_status`.
- **`Crawler`** holds `parse_listing` as a pure, fuel-bounded recursive function `Crawl`, plus the chain of pages it walks (`Walk`). It proves that the crawl is one left-to-right pass over the product URLs of that chain.
  - The class `Crawler.Crawler` holds the visited set as a field that persists across calls. Its `ParseListing` runs the pagination as a loop and is proved equal to `Crawl`.
  - The product resolver is a parameter (`Site.product`), so both source files share this module.
- **`Scrappy`** holds Scrappy.py's `get_soup` outcome, the seven extractors, `get_product_info`, the `Article` class with `to_dict`, `scrape_product`'s filling of an `Article`, and Scrappy.py's crawl.
- **`Amazon`** holds amazon.py's `get_product_info` (its status check, the five extractions including the rating `replace`) and amazon.py's crawl.

How the two files treat a failed request, as the code does it:

- **Scrappy.py product fetch.** `get_soup` rejects only statuses 400 to 599, not every non-2xx status: it calls `raise_for_status`, so a 1xx or 3xx page is parsed. A request that raises is caught, and the product is dropped.
- **amazon.py product fetch.** `get_product_info` rejects every status other than exactly 200, so 201 and 204 are dropped too. It does not catch request exceptions, so a product request that raises ends the whole crawl (`Amazon.CrawlRaisesOnAnyRequestError`).
- **Listing fetch.** Neither crawler checks the listing page's status. An error page is parsed like any other and usually just has no links.

## Model

| member | source | states |
|---|---|---|
| Crawler.Crawler.ParseListing | Scrappy.py:111-137 | A call runs the pages as a loop against the shared visited set. Its outcome is `Crawl`'s outcome: raised, out of fuel, or done with the records. The visited set afterwards is `Crawl`'s, and the product fetches it makes are `Crawl`'s, in order. The same code is amazon.py:49-73. |
| Crawler.Crawler.VisitPage | Scrappy.py:113-134 | One listing page against the shared set gives exactly `CrawlPage`'s result: stop with an outcome, or hand over the next page URL. |
| Crawler.Crawler.VisitOne | Scrappy.py:122-128 | One iteration of the product loop against the shared set: the raised flag, the records, the new visited set and the fetch log are exactly `Visit`'s. |
| Crawler.Crawler.VisitLinks | Scrappy.py:121-128 | The product loop over one page's links. The raised flag, the records, the new visited set and the fetches equal the fold `VisitAll` over the joined URLs. |
| Crawler.Crawler.constructor | Scrappy.py:8 | The visited set starts empty, with no fetches logged. |
| Crawler.Crawl | Scrappy.py:111-137 | The recursive `parse_listing` with the visited set passed in and `fuel` listing pages allowed. The visited set never shrinks, and a finished crawl has no more records than product fetches. |
| Crawler.CrawlPage | Scrappy.py:113-134 | One call's own page. A raised listing request stops the call with nothing fetched and the set unchanged. Otherwise the product loop runs, and the call stops (raised, or done when there is no next link) or hands over to the next page. A single page never runs out of fuel, never shrinks the set, and keeps no more records than fetches. |
| Crawler.Visit | Scrappy.py:122-128 | One product-loop iteration. Unless a fetch already raised, the URL ends up visited. The pass raises iff it had raised or the URL is new and its fetch raises. At most one fetch and one record are added, and never a record without a fetch. |
| Crawler.VisitAll | Scrappy.py:121-128 | The product loop as a left-to-right fold. The visited set never shrinks. The records added are at most the fetches added, and those are at most the URLs. |
| Crawler.FullUrl | Scrappy.py:122 | `urljoin(base, href)`: a missing or empty `href` gives the base URL itself. Any other `href` is resolved by `Site.join`. The same rule joins the next-page link at lines 132-133. |
| Crawler.LoopIsCrawl | Scrappy.py:130-137 | Accumulating `page_data` page by page, as the loop does, equals appending each page's records to the recursive call's result. |
| Crawler.CrawlLoopIsCrawl | Scrappy.py:111-137 | Started with nothing accumulated, the loop form is the recursive crawl. |
| Crawler.CrawlIsScanOfWalk | Scrappy.py:111-137 | The recursive crawl equals one left-to-right product pass over the product URLs of every page walked, ended as the page chain ends. |
| Crawler.CrawlVisited | Scrappy.py:121-128 | The visited set never shrinks. It grows by exactly the fetched URLs. A URL already visited before the call is never fetched. No URL is fetched twice. Every fetched URL was listed on a page walked. A URL stays visited even when its fetch gave no record or the crawl raised. |
| Crawler.CrawlRecords | Scrappy.py:121-135 | A finished crawl returns the fetched URLs' records in fetch order: page by page, link order within a page. Every listed URL ends up visited. Records ≤ fetches ≤ distinct listed URLs not visited before. |
| Crawler.CrawlOutcome | Scrappy.py:113-135 | The crawl raises iff a listing request raised or a fetched product raised, and then returns no records at all. It runs out of fuel iff the chain is longer than the fuel and nothing raised. Otherwise it is done. |
| Crawler.SinglePage | Scrappy.py:130-137 | With no next-page element, the crawl fetches one listing page only. With one page of fuel it never runs out, and any larger fuel gives the same result, for `Crawl` and so for `ParseListing`. A finished crawl returns that page's records alone. |
| Crawler.SelfLinkNeverFinishes | Scrappy.py:130-135 | A next-page link that resolves to its own page is followed again and again: the crawl never finishes, for any fuel. |
| Crawler.CrawlFuelMonotone | Scrappy.py:130-137 | A crawl that ended within its fuel gives the same result with any larger fuel. |
| Crawler.LaterCallSkipsEarlier | Scrappy.py:8 | Two calls sharing the global set: the second call never fetches a URL that the first fetched or that was visited before. |
| Crawler.VisitAllFacts | Scrappy.py:121-128 | One product pass: the visited set grows by exactly the fetched URLs, each fetched once, none visited before. The records are `Collect` of the fetches. The pass raised iff a fetch raised. A pass that did not raise has marked every URL it met. |
| Crawler.VisitAllAppend | Scrappy.py:121-128 | The product loop over two pages' links in a row is the loop over the first, then the second. |
| Crawler.VisitAllRaised | Scrappy.py:126 | After a product fetch has raised, no later link is visited. |
| Crawler.Collect | Scrappy.py:126-128 | Records kept from a list of URLs are never more than the URLs. |
| Crawler.CollectFrom | Scrappy.py:126-128 | Every record kept is the record of one of the fetched URLs. |
| Crawler.CollectTagged | amazon.py:57-64 | When each record carries its own URL and no URL repeats, the records carry pairwise different URLs, each one fetched. |
| Crawler.ListingOf | Scrappy.py:116-132 | The product links are the `href`s of `[data-asin] h2 a`, in document order. The next-page link is present iff `a.s-pagination-next` matches, and is then the first match's `href`. |
| Crawler.FetchListing | Scrappy.py:113-116 | A listing fetch fails only when the request raises. Otherwise the page is parsed whatever its status. |
| Crawler.PageUrls | Scrappy.py:121-122 | One joined URL per link, in link order. A missing or empty `href` resolves to the listing URL. |
| Crawler.Walk | Scrappy.py:130-135 | The chain of listing pages the crawl would request if no product fetch raised. It has at most `fuel` pages, starts with the given URL, and uses them all when it is cut off. A crawl whose product fetch raises requests only a prefix of it. |
| Scrappy.CrawlRaisesOnlyOnListing | Scrappy.py:111-137 | Product failures are swallowed, so the crawl raises iff a listing request raised. Every record of a finished crawl has exactly the six `get_product_info` keys. |
| Scrappy.Resolve | Scrappy.py:126-128 | `get_product_info` as the loop uses it. It never raises, because `get_soup` catches request errors. A record is kept iff `get_soup` succeeds, since the dict then always has six keys and so is truthy. The kept record is `get_product_info`'s. |
| Scrappy.GetSoup | Scrappy.py:37-44 | `None` iff the request raised or the status is 400-599. Otherwise the response's document. |
| Scrappy.GetTitle | Scrappy.py:47-51 | The stripped text of `#productTitle`, or "No title found" when there is no document or no element. The result never has whitespace at either end. |
| Scrappy.GetPrice | Scrappy.py:54-58 | The stripped text of `span.a-offscreen`, or "No price found". The result is stripped. |
| Scrappy.GetBought | Scrappy.py:61-65 | Some iff the document has the bought element, and then its stripped text. Otherwise `None`. |
| Scrappy.GetReviews | Scrappy.py:68-72 | The stripped text of `#acrCustomerReviewText`, or "No reviews found". The result is stripped. |
| Scrappy.GetRating | Scrappy.py:75-79 | The stripped text of `#acrPopover`, or "No rating found". The result is stripped. |
| Scrappy.GetImage | Scrappy.py:82-86 | Some iff the element exists and has a `src` attribute, and then that raw value. |
| Scrappy.GetDescription | Scrappy.py:89-93 | Some iff the element exists, and then its whole text stripped at the two ends only. |
| Scrappy.GetProductInfo | Scrappy.py:96-108 | `None` iff `get_soup` fails. Otherwise a record with exactly the keys title, price, reviews, bought, image and description, each holding its extractor's value. |
| Scrappy.Article.constructor | Scrappy.py:12-21 | The nine defaults: empty strings, 0.0, and `None` for image and url. |
| Scrappy.Article.ToDict | Scrappy.py:23-34 | All nine keys, each holding its field. |
| Scrappy.FillArticle | Scrappy.py:151-159 | A fresh `Article` with the eight assigned fields set. `discount` keeps 0.0. |
| Scrappy.ScrapeArticle | Scrappy.py:151-160 | The serialised article has all nine keys. `url` echoes the request, `discount` is 0.0, and every other key holds its extractor's value. |
| Amazon.GetProductInfo | amazon.py:15-46 | Raises iff the request raised. `None` iff the status is not exactly 200, so 201 and 204 give `None` too. Otherwise the page's record. |
| Amazon.Record | amazon.py:39-46 | Exactly the keys title, price, rating, image, description and url. `url` is the requested URL, and each other key holds its extraction or null. |
| Amazon.ExtractTitle | amazon.py:23-24 | Some iff the element exists, and then its text stripped: no whitespace at either end. |
| Amazon.ExtractPrice | amazon.py:26-27 | Some iff the element exists, and then its raw, unstripped text. |
| Amazon.ExtractRating | amazon.py:29-31 | `None` iff the element is missing, or its `title` attribute is missing or empty. Otherwise that attribute with every "out of 5 stars" deleted. |
| Amazon.ExtractImage | amazon.py:33-34 | Some iff the element exists and has `src`, and then that raw value. |
| Amazon.ExtractDescription | amazon.py:36-37 | Some iff `#productDescription` exists, and then its text stripped. |
| Amazon.RatingKeepsTextWithoutPhrase | amazon.py:29-31 | A rating text comes back unchanged iff "out of 5 stars" does not occur in it. |
| Amazon.MissingElementOnlyNullsItsField | amazon.py:23-46 | Removing the element of one field nulls that field only. The other fields are unchanged and the record is still returned. |
| Amazon.CrawlRecordsHaveDistinctUrls | amazon.py:57-64 | The records of a finished crawl carry pairwise different `url`s, each a fetched URL. A link repeated on one page or across pages yields at most one record. |
| Amazon.CrawlRaisesOnAnyRequestError | amazon.py:57-64 | Because product requests are not guarded, the crawl raises iff a listing request or a fetched product's request raised. A non-200 product is only dropped. |
| PyStr.Strip | amazon.py:24 | `str.strip()`: a slice of the input with whitespace only outside it, and no whitespace at either of its ends. |
| PyStr.StripUnique | amazon.py:24 | Any slice with those properties is `Strip`'s result, so the contract determines `strip()`. |
| PyStr.StripFixpoint | amazon.py:37 | Stripping leaves a string unchanged iff neither end is whitespace. |
| PyStr.StripIdempotent | amazon.py:37 | Stripping twice is stripping once. |
| PyStr.ConcatStripped | Scrappy.py:50 | Joining stripped pieces gives a stripped string, which is why `get_text(strip=True)` has no outer whitespace. |
| PyStr.RemoveAll | amazon.py:31 | `replace(pat, "")` never lengthens the text. |
| PyStr.RemoveAllUnchanged | amazon.py:31 | `replace(pat, "")` returns its input iff `pat` is empty or does not occur in it. |
| PyStr.SinglePass | amazon.py:31 | The deletion is one pass: deleting "ab" from "aabb" leaves "ab". |
| Http.RaisesForStatus | Scrappy.py:40 | `raise_for_status` raises iff the status is a client error (400-499) or a server error (500-599). Every 1xx, 2xx and 3xx status passes. |
| Html.SelectOne | Scrappy.py:49 | `select_one` is `None` iff nothing matches, and otherwise the first match. |
| Html.StrippedText | Scrappy.py:50 | `get_text(strip=True)` never starts or ends with whitespace. |
| Json.OptStr | amazon.py:24 | A Python `None` becomes JSON null, and a string becomes a JSON string. |

## Left out

- HTTP: headers, the printed status codes and diagnostics, redirects and retries. A request is a fixed function from URL to "raised" or (status, parsed document). The web never changes between two requests for the same URL.
- HTML parsing and CSS selector evaluation (BeautifulSoup and lxml). A document maps each selector the code uses to its matches in document order. An element is its text nodes and attributes, and the element tree is not modelled.
- `urljoin`'s reference resolution is a parameter (`Site.join`). Only its rule that a missing or empty `href` resolves to the base URL is modelled.
- The Flask routes `scrape_product` and `scrape_list`, `jsonify`, the request body and the 400/500 error envelopes, and `app.run`. Only the `Article` that `scrape_product` fills in is modelled.
- amazon.py's `main` and its hardcoded search URL.
- Concurrency. Flask may serve requests on several threads that share `visited_urls`; the model runs one call at a time.
- Crawler.Crawl: the source has no bound on the next-page chain, and a cyclic chain recurses until Python's recursion limit. Every crawl here gets `fuel` listing pages, and `OutOfFuel` stands for a crawl still running.
- Crawler.Crawler.ParseListing: the loop replaces the source's recursion, so Python's recursion limit is not modelled.
- Json.Value: the numbers are the `Article` defaults only (0.0). The JSON number format and float semantics are not modelled.
- PyStr.Strip: whitespace is the `str.isspace()` set of code points. Combining-character and normalisation questions do not arise and are not modelled.
