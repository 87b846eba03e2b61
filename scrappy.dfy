/**
 * Scrappy.py: the product-page extractors, `get_product_info`, the `Article` record
 * and the resolver its `parse_listing` uses. Every extractor takes the result of
 * `get_soup`, which is `None` when the page could not be fetched.
 */
module Scrappy {
  import opened Wrappers
  import opened Html
  import opened Json
  import opened Http
  import opened PyStr
  import opened Crawler

  const TitleSelector := "#productTitle"
  const PriceSelector := "span.a-offscreen"
  const BoughtSelector := "#social-proofing-faceout-title-tk_bought"
  const ReviewsSelector := "#acrCustomerReviewText"
  const RatingSelector := "#acrPopover"
  const ImageSelector := "#landingImage"
  const DescriptionSelector := "#feature-bullets"

  const NoTitle := "No title found"
  const NoPrice := "No price found"
  const NoReviews := "No reviews found"
  const NoRating := "No rating found"

  /** The keys of the dictionary `get_product_info` builds. */
  const ProductKeys := {Title, Price, Reviews, Bought, Image, Description}

  /** The keys of `Article.to_dict()`. */
  const ArticleKeys := {Title, Price, Reviews, Rating, Discount, Image, Url, Description, Bought}

  /**
   * `get_soup(url)`: the document, or `None` when the request raised or
   * `raise_for_status` rejected the status (400 to 599).
   */
  function GetSoup(web: Web, url: string): (soup: Option<Document>)
    ensures soup.None? <==> web(url).NetworkError? || RaisesForStatus(web(url).status)
    ensures soup.Some? ==> soup.value == web(url).doc
  {
    match web(url)
    case NetworkError => None
    case Responded(status, doc) => if RaisesForStatus(status) then None else Some(doc)
  }

  /** The document exists and `select_one(sel)` finds an element in it. */
  predicate Found(soup: Option<Document>, sel: string)
  {
    soup.Some? && SelectOne(soup.value, sel).Some?
  }

  function Target(soup: Option<Document>, sel: string): Element
    requires Found(soup, sel)
  {
    SelectOne(soup.value, sel).value
  }

  /** `get_text(strip=True)` of the target, or `sentinel` when there is none. */
  function TextOr(soup: Option<Document>, sel: string, sentinel: string): (r: string)
    ensures Found(soup, sel) ==> r == StrippedText(Target(soup, sel))
    ensures !Found(soup, sel) ==> r == sentinel
  {
    if Found(soup, sel) then StrippedText(Target(soup, sel)) else sentinel
  }

  function GetTitle(soup: Option<Document>): (r: string)
    ensures IsStripped(r)
    ensures !Found(soup, TitleSelector) ==> r == NoTitle
    ensures Found(soup, TitleSelector) ==> r == StrippedText(Target(soup, TitleSelector))
  {
    assert IsStripped(NoTitle);
    TextOr(soup, TitleSelector, NoTitle)
  }

  function GetPrice(soup: Option<Document>): (r: string)
    ensures IsStripped(r)
    ensures !Found(soup, PriceSelector) ==> r == NoPrice
    ensures Found(soup, PriceSelector) ==> r == StrippedText(Target(soup, PriceSelector))
  {
    assert IsStripped(NoPrice);
    TextOr(soup, PriceSelector, NoPrice)
  }

  function GetReviews(soup: Option<Document>): (r: string)
    ensures IsStripped(r)
    ensures !Found(soup, ReviewsSelector) ==> r == NoReviews
    ensures Found(soup, ReviewsSelector) ==> r == StrippedText(Target(soup, ReviewsSelector))
  {
    assert IsStripped(NoReviews);
    TextOr(soup, ReviewsSelector, NoReviews)
  }

  function GetRating(soup: Option<Document>): (r: string)
    ensures IsStripped(r)
    ensures !Found(soup, RatingSelector) ==> r == NoRating
    ensures Found(soup, RatingSelector) ==> r == StrippedText(Target(soup, RatingSelector))
  {
    assert IsStripped(NoRating);
    TextOr(soup, RatingSelector, NoRating)
  }

  function GetBought(soup: Option<Document>): (r: Option<string>)
    ensures r.Some? <==> Found(soup, BoughtSelector)
    ensures r.Some? ==> IsStripped(r.value) && r.value == StrippedText(Target(soup, BoughtSelector))
  {
    if Found(soup, BoughtSelector) then Some(StrippedText(Target(soup, BoughtSelector))) else None
  }

  /** `attrs.get("src")`: the raw attribute value, unstripped. */
  function GetImage(soup: Option<Document>): (r: Option<string>)
    ensures r.Some? <==> Found(soup, ImageSelector) && "src" in Target(soup, ImageSelector).attrs
    ensures r.Some? ==> r.value == Target(soup, ImageSelector).attrs["src"]
  {
    if Found(soup, ImageSelector) then Attr(Target(soup, ImageSelector), "src") else None
  }

  /** `.text.strip()`: the whole text, stripped at its two ends only. */
  function GetDescription(soup: Option<Document>): (r: Option<string>)
    ensures r.Some? <==> Found(soup, DescriptionSelector)
    ensures r.Some? ==> IsStripped(r.value) && r.value == Strip(Text(Target(soup, DescriptionSelector)))
  {
    if Found(soup, DescriptionSelector) then Some(Strip(Text(Target(soup, DescriptionSelector)))) else None
  }

  /**
   * `get_product_info(url)`: `None` exactly when `get_soup` fails; otherwise a
   * dictionary with exactly six keys (no Rating, no Url), each holding its
   * extractor's value.
   */
  function GetProductInfo(web: Web, url: string): (r: Option<Dict>)
    ensures r.None? <==> web(url).NetworkError? || RaisesForStatus(web(url).status)
    ensures r.Some? ==> var soup := Some(web(url).doc);
      && r.value.Keys == ProductKeys
      && r.value[Title] == Str(GetTitle(soup))
      && r.value[Price] == Str(GetPrice(soup))
      && r.value[Reviews] == Str(GetReviews(soup))
      && r.value[Bought] == OptStr(GetBought(soup))
      && r.value[Image] == OptStr(GetImage(soup))
      && r.value[Description] == OptStr(GetDescription(soup))
  {
    var soup := GetSoup(web, url);
    if soup.None? then None
    else
      var title, price, reviews := Str(GetTitle(soup)), Str(GetPrice(soup)), Str(GetReviews(soup));
      var bought, image := OptStr(GetBought(soup)), OptStr(GetImage(soup));
      var description := OptStr(GetDescription(soup));
      Some(map[Title := title, Price := price, Reviews := reviews,
               Bought := bought, Image := image, Description := description])
  }

  /** `get_product_info` as `parse_listing` uses it: a non-empty dict is always kept. */
  function Resolve(web: Web, url: string): (f: ProductFetch)
    ensures !f.ProductRaised?
    ensures f.Product? <==> GetSoup(web, url).Some?
    ensures f.Product? ==> f.record.Keys == ProductKeys && Some(f.record) == GetProductInfo(web, url)
  {
    var info := GetProductInfo(web, url);
    if info.Some? then Product(info.value) else NoProduct
  }

  /** The site as Scrappy.py's `parse_listing` sees it. */
  function ListingSite(web: Web, join: (string, string) -> string): Site
  {
    Site(web, join, u => Resolve(web, u))
  }

  /**
   * Product failures are swallowed, so Scrappy.py's crawl raises exactly when a
   * listing-page request raised, and a finished crawl's records all have the six keys
   * of `get_product_info` (and so none says which URL it came from).
   */
  lemma {:induction false} CrawlRaisesOnlyOnListing(web: Web, join: (string, string) -> string,
                                                    url: string, v: set<string>, fuel: nat)
    ensures var site := ListingSite(web, join);
            var c := Crawl(site, url, v, fuel);
            && (c.outcome.Raised? <==> Walk(site, url, fuel).end == ListingFailed)
            && (c.outcome.Done? ==> forall r :: r in c.outcome.records ==> r.Keys == ProductKeys)
  {
    var site := ListingSite(web, join);
    var c := Crawl(site, url, v, fuel);
    CrawlOutcome(site, url, v, fuel);
    assert forall u :: !site.product(u).ProductRaised?;
    if c.outcome.Done? {
      CrawlRecords(site, url, v, fuel);
      CollectFrom(site.product, c.fetched);
    }
  }

  /** `Article`: the field bag `scrape_product` fills in and serialises. */
  class Article {
    var title: Value
    var price: Value
    var reviews: Value
    var rating: Value
    var discount: Value
    var image: Value
    var url: Value
    var description: Value
    var bought: Value

    constructor ()
      ensures title == Str("") && description == Str("") && bought == Str("")
      ensures price == Num(0.0) && reviews == Num(0.0) && rating == Num(0.0) && discount == Num(0.0)
      ensures image == Null && url == Null
    {
      title, price, reviews, rating, discount := Str(""), Num(0.0), Num(0.0), Num(0.0), Num(0.0);
      image, url, description, bought := Null, Null, Str(""), Str("");
    }

    /** `to_dict()`: all nine fields under their own names. */
    function ToDict(): (d: Dict)
      reads this
      ensures d.Keys == ArticleKeys
      ensures d[Title] == title && d[Price] == price && d[Reviews] == reviews
      ensures d[Rating] == rating && d[Discount] == discount && d[Image] == image
      ensures d[Url] == url && d[Description] == description && d[Bought] == bought
    {
      map[Title := title, Price := price, Reviews := reviews, Rating := rating,
          Discount := discount, Image := image, Url := url,
          Description := description, Bought := bought]
    }
  }

  /**
   * The assignments of `scrape_product`: a fresh `Article` whose fields are set one
   * by one, in the source's order; `discount` is never assigned and keeps its
   * initial 0.0.
   */
  method FillArticle(title: Value, price: Value, description: Value, bought: Value, image: Value,
                     url: Value, rating: Value, reviews: Value) returns (article: Article)
    ensures fresh(article)
    ensures article.title == title && article.price == price && article.description == description
    ensures article.bought == bought && article.image == image && article.url == url
    ensures article.rating == rating && article.reviews == reviews && article.discount == Num(0.0)
  {
    article := new Article();
    article.title := title;
    article.price := price;
    article.description := description;
    article.bought := bought;
    article.image := image;
    article.url := url;
    article.rating := rating;
    article.reviews := reviews;
  }

  /**
   * What `scrape_product` serialises once `get_soup` has succeeded: all nine keys are
   * present, `url` echoes the request, `discount` is 0.0, and every other key holds
   * its extractor's value on the document.
   */
  method ScrapeArticle(doc: Document, url: string) returns (d: Dict)
    ensures d.Keys == ArticleKeys
    ensures d[Url] == Str(url) && d[Discount] == Num(0.0)
    ensures d[Title] == Str(GetTitle(Some(doc))) && d[Price] == Str(GetPrice(Some(doc)))
    ensures d[Rating] == Str(GetRating(Some(doc))) && d[Reviews] == Str(GetReviews(Some(doc)))
    ensures d[Description] == OptStr(GetDescription(Some(doc)))
    ensures d[Bought] == OptStr(GetBought(Some(doc))) && d[Image] == OptStr(GetImage(Some(doc)))
  {
    var soup := Some(doc);
    var article := FillArticle(Str(GetTitle(soup)), Str(GetPrice(soup)), OptStr(GetDescription(soup)),
                               OptStr(GetBought(soup)), OptStr(GetImage(soup)), Str(url),
                               Str(GetRating(soup)), Str(GetReviews(soup)));
    d := article.ToDict();
  }
}
