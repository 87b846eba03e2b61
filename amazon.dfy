/**
 * amazon.py: `get_product_info` with its status check and per-field extraction, and
 * the resolver its `parse_listing` uses. Unlike Scrappy.py, a request exception while
 * fetching a product is not caught.
 */
module Amazon {
  import opened Wrappers
  import opened Html
  import opened Json
  import opened Http
  import opened PyStr
  import opened Crawler

  const TitleSelector := "#productTitle"
  const PriceSelector := "span.a-offscreen"
  const RatingSelector := "#acrPopover"
  const ImageSelector := "#landingImage"
  const DescriptionSelector := "#productDescription"

  const StarsPhrase := "out of 5 stars"

  const RecordKeys := {Title, Price, Rating, Image, Description, Url}

  /** `title_element.text.strip()`, or `None`. */
  function ExtractTitle(doc: Document): (r: Option<string>)
    ensures r.Some? <==> SelectOne(doc, TitleSelector).Some?
    ensures r.Some? ==> IsStripped(r.value) && r.value == Strip(Text(SelectOne(doc, TitleSelector).value))
  {
    var e := SelectOne(doc, TitleSelector);
    if e.Some? then Some(Strip(Text(e.value))) else None
  }

  /** `price_element.text`, whitespace and all, or `None`. */
  function ExtractPrice(doc: Document): (r: Option<string>)
    ensures r.Some? <==> SelectOne(doc, PriceSelector).Some?
    ensures r.Some? ==> r.value == Text(SelectOne(doc, PriceSelector).value)
  {
    var e := SelectOne(doc, PriceSelector);
    if e.Some? then Some(Text(e.value)) else None
  }

  /**
   * The rating popover's `title` attribute with "out of 5 stars" deleted; `None` when
   * the element or the attribute is missing, or the attribute is empty.
   */
  function ExtractRating(doc: Document): (r: Option<string>)
    ensures var e := SelectOne(doc, RatingSelector);
            r.None? <==> e.None? || Attr(e.value, "title").None? || Attr(e.value, "title") == Some("")
    ensures r.Some? ==> r.value == RemoveAll(Attr(SelectOne(doc, RatingSelector).value, "title").value, StarsPhrase)
  {
    var e := SelectOne(doc, RatingSelector);
    var ratingText := if e.Some? then Attr(e.value, "title") else None;
    if ratingText.Some? && ratingText.value != "" then Some(RemoveAll(ratingText.value, StarsPhrase)) else None
  }

  /** `image_element.attrs.get("src")`, raw, or `None`. */
  function ExtractImage(doc: Document): (r: Option<string>)
    ensures var e := SelectOne(doc, ImageSelector);
            r.Some? <==> e.Some? && "src" in e.value.attrs
    ensures r.Some? ==> r.value == SelectOne(doc, ImageSelector).value.attrs["src"]
  {
    var e := SelectOne(doc, ImageSelector);
    if e.Some? then Attr(e.value, "src") else None
  }

  /** `description_element.text.strip()`, or `None`. */
  function ExtractDescription(doc: Document): (r: Option<string>)
    ensures r.Some? <==> SelectOne(doc, DescriptionSelector).Some?
    ensures r.Some? ==> IsStripped(r.value) && r.value == Strip(Text(SelectOne(doc, DescriptionSelector).value))
  {
    var e := SelectOne(doc, DescriptionSelector);
    if e.Some? then Some(Strip(Text(e.value))) else None
  }

  /** The dictionary built from a product page: six keys, `url` being the requested URL. */
  function Record(doc: Document, url: string): (d: Dict)
    ensures d.Keys == RecordKeys
    ensures d[Url] == Str(url)
    ensures d[Title] == OptStr(ExtractTitle(doc)) && d[Price] == OptStr(ExtractPrice(doc))
    ensures d[Rating] == OptStr(ExtractRating(doc)) && d[Image] == OptStr(ExtractImage(doc))
    ensures d[Description] == OptStr(ExtractDescription(doc))
  {
    Assemble(ExtractTitle(doc), ExtractPrice(doc), ExtractRating(doc), ExtractImage(doc), ExtractDescription(doc), url)
  }

  /**
   * `get_product_info(url)`: a request exception propagates; any status other than
   * exactly 200 (201 and 204 included) gives `None`; a 200 gives the record.
   */
  function GetProductInfo(web: Web, url: string): (r: ProductFetch)
    ensures r.ProductRaised? <==> web(url).NetworkError?
    ensures r.NoProduct? <==> web(url).Responded? && web(url).status != 200
    ensures r.Product? ==> r.record == Record(web(url).doc, url)
  {
    match web(url)
    case NetworkError => ProductRaised
    case Responded(status, doc) => if status != 200 then NoProduct else Product(Record(doc, url))
  }

  function Resolver(web: Web): string -> ProductFetch
  {
    u => GetProductInfo(web, u)
  }

  /** The site as amazon.py's `parse_listing` sees it. */
  function ListingSite(web: Web, join: (string, string) -> string): Site
  {
    Site(web, join, Resolver(web))
  }

  /**
   * A rating text without the phrase comes back as it is, and one with the phrase
   * always comes back changed.
   */
  lemma {:induction false} RatingKeepsTextWithoutPhrase(doc: Document)
    requires ExtractRating(doc).Some?
    ensures var text := Attr(SelectOne(doc, RatingSelector).value, "title").value;
            ExtractRating(doc) == Some(text) <==> !Occurs(StarsPhrase, text)
  {
    RemoveAllUnchanged(Attr(SelectOne(doc, RatingSelector).value, "title").value, StarsPhrase);
  }

  lemma SelectOneWithout(doc: Document, removed: string, sel: string)
    ensures SelectOne(doc - {removed}, sel) == if sel == removed then None else SelectOne(doc, sel)
  {
  }

  /** The record assembled from its five extracted fields. */
  function Assemble(title: Option<string>, price: Option<string>, rating: Option<string>,
                    image: Option<string>, description: Option<string>, url: string): Dict
  {
    map[Title := OptStr(title), Price := OptStr(price), Rating := OptStr(rating),
        Image := OptStr(image), Description := OptStr(description), Url := Str(url)]
  }

  /** The fields taken from the page, and the selector each one comes from. */
  const Extracted := {Title, Price, Rating, Image, Description}

  function SelectorOf(field: Key): string
    requires field in Extracted
  {
    match field
    case Title => TitleSelector
    case Price => PriceSelector
    case Rating => RatingSelector
    case Image => ImageSelector
    case Description => DescriptionSelector
  }

  /**
   * A missing element empties its own field and no other: the page without it gives
   * the same record, still returned, with just that field `None`.
   */
  lemma MissingElementOnlyNullsItsField(doc: Document, url: string, field: Key)
    requires field in Extracted
    ensures Record(doc - {SelectorOf(field)}, url) == Record(doc, url)[field := Null]
  {
    SelectorsDiffer();
    match field
    case Title => WithoutTitle(doc, url);
    case Price => WithoutPrice(doc, url);
    case Rating => WithoutRating(doc, url);
    case Image => WithoutImage(doc, url);
    case Description => WithoutDescription(doc, url);
  }

  lemma SelectorsDiffer()
    ensures forall a, b :: a in Extracted && b in Extracted && a != b ==> SelectorOf(a) != SelectorOf(b)
  {
    assert TitleSelector[1] == 'p' && ImageSelector[1] == 'l';
    assert |TitleSelector| == 13 && |PriceSelector| == 16 && |RatingSelector| == 11;
    assert |ImageSelector| == 13 && |DescriptionSelector| == 19;
  }

  /** Removing the selector of `field` leaves the other four extractions as they were. */
  lemma OthersKept(doc: Document, field: Key)
    requires field in Extracted
    ensures var without := doc - {SelectorOf(field)};
            && (field != Title ==> ExtractTitle(without) == ExtractTitle(doc))
            && (field != Price ==> ExtractPrice(without) == ExtractPrice(doc))
            && (field != Rating ==> ExtractRating(without) == ExtractRating(doc))
            && (field != Image ==> ExtractImage(without) == ExtractImage(doc))
            && (field != Description ==> ExtractDescription(without) == ExtractDescription(doc))
  {
    var sel := SelectorOf(field);
    SelectorsDiffer();
    assert TitleSelector == SelectorOf(Title) && PriceSelector == SelectorOf(Price);
    assert RatingSelector == SelectorOf(Rating) && ImageSelector == SelectorOf(Image);
    assert DescriptionSelector == SelectorOf(Description);
    SelectOneWithout(doc, sel, TitleSelector);
    SelectOneWithout(doc, sel, PriceSelector);
    SelectOneWithout(doc, sel, RatingSelector);
    SelectOneWithout(doc, sel, ImageSelector);
    SelectOneWithout(doc, sel, DescriptionSelector);
  }

  lemma WithoutTitle(doc: Document, url: string)
    ensures Record(doc - {TitleSelector}, url) == Record(doc, url)[Title := Null]
  {
    OthersKept(doc, Title);
    SelectOneWithout(doc, TitleSelector, TitleSelector);
  }

  lemma WithoutPrice(doc: Document, url: string)
    ensures Record(doc - {PriceSelector}, url) == Record(doc, url)[Price := Null]
  {
    OthersKept(doc, Price);
    SelectOneWithout(doc, PriceSelector, PriceSelector);
  }

  lemma WithoutRating(doc: Document, url: string)
    ensures Record(doc - {RatingSelector}, url) == Record(doc, url)[Rating := Null]
  {
    OthersKept(doc, Rating);
    SelectOneWithout(doc, RatingSelector, RatingSelector);
  }

  lemma WithoutImage(doc: Document, url: string)
    ensures Record(doc - {ImageSelector}, url) == Record(doc, url)[Image := Null]
  {
    OthersKept(doc, Image);
    SelectOneWithout(doc, ImageSelector, ImageSelector);
  }

  lemma WithoutDescription(doc: Document, url: string)
    ensures Record(doc - {DescriptionSelector}, url) == Record(doc, url)[Description := Null]
  {
    OthersKept(doc, Description);
    SelectOneWithout(doc, DescriptionSelector, DescriptionSelector);
  }

  /**
   * The records of a finished amazon.py crawl carry pairwise different `url`s, each one
   * a product URL that was fetched: a link repeated on one page or across pages gives
   * at most one record.
   */
  lemma {:induction false} CrawlRecordsHaveDistinctUrls(web: Web, join: (string, string) -> string,
                                                        url: string, v: set<string>, fuel: nat)
    ensures var c := Crawl(ListingSite(web, join), url, v, fuel);
            c.outcome.Done? ==> TaggedBy(c.outcome.records, Url, c.fetched)
  {
    var site := ListingSite(web, join);
    var c := Crawl(site, url, v, fuel);
    CrawlVisited(site, url, v, fuel);
    CrawlRecords(site, url, v, fuel);
    assert forall u :: site.product(u).Product? ==> site.product(u).record[Url] == Str(u);
    CollectTagged(site.product, c.fetched, Url);
  }

  /**
   * Because product requests are not guarded, amazon.py's crawl raises exactly when
   * a listing request or a product request raised; a product with a non-200 status is
   * only dropped.
   */
  lemma {:induction false} CrawlRaisesOnAnyRequestError(web: Web, join: (string, string) -> string,
                                                        url: string, v: set<string>, fuel: nat)
    ensures var site := ListingSite(web, join);
            var c := Crawl(site, url, v, fuel);
            c.outcome.Raised? <==>
              Walk(site, url, fuel).end == ListingFailed || exists u :: u in c.fetched && web(u).NetworkError?
  {
    var site := ListingSite(web, join);
    CrawlOutcome(site, url, v, fuel);
    assert forall u :: site.product(u).ProductRaised? <==> web(u).NetworkError?;
  }
}
