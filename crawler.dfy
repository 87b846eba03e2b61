/**
 * The pagination crawler `parse_listing` (the same code in Scrappy.py and amazon.py).
 *
 * For one listing URL it fetches the page, walks the product links in page order,
 * joins each against the listing URL, skips URLs already in the visited set, marks a
 * new URL visited before resolving it, keeps the records the resolver returns, then
 * recurses into the "next page" link and appends that result.
 *
 * The source never stops a cyclic or endless "next page" chain, so every crawl here is
 * given `fuel`: the number of listing pages it may fetch. `OutOfFuel` is the crawl that
 * the source would still be running.
 */
module Crawler {
  import opened Wrappers
  import opened Html
  import opened Json
  import opened Http

  const ProductLinkSelector := "[data-asin] h2 a"
  const NextPageSelector := "a.s-pagination-next"

  /** A link element, reduced to its `href` attribute (which may be missing). */
  datatype Anchor = Anchor(href: Option<string>)

  /** What a listing page offers: its product links, and its "next page" link if any. */
  datatype Listing = Listing(products: seq<Anchor>, next: Option<Anchor>)

  datatype ListingFetch = ListingRaised | ListingPage(page: Listing)

  /** What resolving one product URL does: raise, give nothing, or give a record. */
  datatype ProductFetch = ProductRaised | NoProduct | Product(record: Dict)

  /**
   * Everything the crawler depends on: the web, `urljoin`'s reference resolution for a
   * non-empty href, and the product resolver (`get_product_info`) of the source file.
   */
  datatype Site = Site(web: Web, join: (string, string) -> string, product: string -> ProductFetch)

  /** The listing page's links, as `select` and `select_one` find them. */
  function ListingOf(doc: Document): (l: Listing)
    ensures |l.products| == |Select(doc, ProductLinkSelector)|
    ensures forall i :: 0 <= i < |l.products| ==>
              l.products[i].href == Attr(Select(doc, ProductLinkSelector)[i], "href")
    ensures l.next.None? <==> Select(doc, NextPageSelector) == []
    ensures l.next.Some? ==> l.next.value.href == Attr(Select(doc, NextPageSelector)[0], "href")
  {
    var links := Select(doc, ProductLinkSelector);
    var next := SelectOne(doc, NextPageSelector);
    Listing(seq(|links|, i requires 0 <= i < |links| => Anchor(Attr(links[i], "href"))),
            if next.Some? then Some(Anchor(Attr(next.value, "href"))) else None)
  }

  /**
   * `requests.get(listing_url)` followed by parsing: only a raised request exception
   * is a failure; the status code is printed but never checked, so an error page is
   * parsed like any other.
   */
  function FetchListing(resp: Response): (r: ListingFetch)
    ensures r.ListingRaised? <==> resp.NetworkError?
    ensures resp.Responded? ==> r == ListingPage(ListingOf(resp.doc))
  {
    match resp
    case NetworkError => ListingRaised
    case Responded(_, doc) => ListingPage(ListingOf(doc))
  }

  /** `urljoin(base, href)`: a missing or empty href resolves to the base itself. */
  function FullUrl(join: (string, string) -> string, base: string, a: Anchor): (u: string)
    ensures a.href.None? ==> u == base
    ensures a.href == Some("") ==> u == base
    ensures a.href.Some? && a.href.value != "" ==> u == join(base, a.href.value)
  {
    if a.href.None? || a.href.value == "" then base else join(base, a.href.value)
  }

  function PageUrls(join: (string, string) -> string, base: string, links: seq<Anchor>): (urls: seq<string>)
    ensures |urls| == |links|
    ensures forall i :: 0 <= i < |links| ==> urls[i] == FullUrl(join, base, links[i])
  {
    seq(|links|, i requires 0 <= i < |links| => FullUrl(join, base, links[i]))
  }

  // ---------------------------------------------------------------------------
  // One pass over product URLs

  /**
   * The state of the product loop: the visited set, the records kept so far, the
   * product URLs actually fetched (in order), and whether a fetch raised.
   */
  datatype Scan = Scan(visited: set<string>, records: seq<Dict>, fetched: seq<string>, raised: bool)

  function Start(visited: set<string>): Scan
  {
    Scan(visited, [], [], false)
  }

  /** One iteration of the product loop (Scrappy.py:122-128). */
  function Visit(product: string -> ProductFetch, s: Scan, u: string): (r: Scan)
    ensures s.visited <= r.visited
    ensures !s.raised ==> u in r.visited
    ensures r.raised <==> s.raised || (u !in s.visited && product(u).ProductRaised?)
    ensures |r.records| - |s.records| <= |r.fetched| - |s.fetched| <= 1
  {
    if s.raised || u in s.visited then s
    else
      var marked := s.(visited := s.visited + {u}, fetched := s.fetched + [u]);
      match product(u)
      case ProductRaised => marked.(raised := true)
      case NoProduct => marked
      case Product(r) => marked.(records := s.records + [r])
  }

  /** The product loop over `urls`, left to right, as a fold. */
  function VisitAll(product: string -> ProductFetch, s: Scan, urls: seq<string>): (r: Scan)
    ensures s.visited <= r.visited
    ensures |r.records| - |s.records| <= |r.fetched| - |s.fetched| <= |urls|
  {
    if urls == [] then s
    else Visit(product, VisitAll(product, s, urls[..|urls| - 1]), urls[|urls| - 1])
  }

  // ---------------------------------------------------------------------------
  // The crawl, as the source writes it

  datatype Outcome = Raised | OutOfFuel | Done(records: seq<Dict>)

  /** The outcome, the visited set afterwards, and the product URLs fetched in order. */
  datatype CrawlResult = CrawlResult(outcome: Outcome, visited: set<string>, fetched: seq<string>)

  /** `page_data += parse_listing(next_page_url)`: this page's part, then the rest. */
  function Then(records: seq<Dict>, fetched: seq<string>, rest: CrawlResult): CrawlResult
  {
    CrawlResult(if rest.outcome.Done? then Done(records + rest.outcome.records) else rest.outcome,
                rest.visited, fetched + rest.fetched)
  }

  /** How one call's own page ends: with the call's whole result, or by handing over to the next page. */
  datatype PageResult =
    | Stopped(result: CrawlResult)
    | Next(records: seq<Dict>, fetched: seq<string>, visited: set<string>, next: string)

  /**
   * One call's work on its own listing page (Scrappy.py:113-134): fetch it (a raised
   * request ends the call), visit its product links, then stop or go to the next page.
   */
  function CrawlPage(site: Site, url: string, visited: set<string>): (p: PageResult)
    ensures site.web(url).NetworkError? ==> p == Stopped(CrawlResult(Raised, visited, []))
    ensures p.Stopped? ==> !p.result.outcome.OutOfFuel? && visited <= p.result.visited
    ensures p.Stopped? && p.result.outcome.Done? ==> |p.result.outcome.records| <= |p.result.fetched|
    ensures p.Next? ==> site.web(url).Responded? && visited <= p.visited && |p.records| <= |p.fetched|
  {
    match FetchListing(site.web(url))
    case ListingRaised => Stopped(CrawlResult(Raised, visited, []))
    case ListingPage(page) =>
      var s := VisitAll(site.product, Start(visited), PageUrls(site.join, url, page.products));
      if s.raised then Stopped(CrawlResult(Raised, s.visited, s.fetched))
      else if page.next.None? then Stopped(CrawlResult(Done(s.records), s.visited, s.fetched))
      else Next(s.records, s.fetched, s.visited, FullUrl(site.join, url, page.next.value))
  }

  /** `parse_listing(url)` with the visited set `visited`, fetching at most `fuel` listing pages. */
  function Crawl(site: Site, url: string, visited: set<string>, fuel: nat): (c: CrawlResult)
    ensures visited <= c.visited
    ensures c.outcome.Done? ==> |c.outcome.records| <= |c.fetched|
    decreases fuel
  {
    if fuel == 0 then CrawlResult(OutOfFuel, visited, [])
    else
      match CrawlPage(site, url, visited)
      case Stopped(result) => result
      case Next(records, fetched, visited', next) => Then(records, fetched, Crawl(site, next, visited', fuel - 1))
  }

  /**
   * The same crawl with the recursion turned into a loop: `records` and `fetched` are
   * what the pages before `url` have contributed.
   */
  function CrawlLoop(site: Site, url: string, visited: set<string>, fuel: nat,
                     records: seq<Dict>, fetched: seq<string>): CrawlResult
    decreases fuel
  {
    if fuel == 0 then Then(records, fetched, CrawlResult(OutOfFuel, visited, []))
    else
      match CrawlPage(site, url, visited)
      case Stopped(result) => Then(records, fetched, result)
      case Next(records', fetched', visited', next) =>
        CrawlLoop(site, next, visited', fuel - 1, records + records', fetched + fetched')
  }

  // ---------------------------------------------------------------------------
  // The chain of listing pages, which does not depend on the visited set

  datatype ChainEnd = LastPage | ListingFailed | FuelExhausted

  /**
   * The chain of listing URLs the crawl would request if no product fetch raised, the
   * product URLs they list (in order), and how the chain ends.  A crawl stops early on
   * the first product fetch that raises, so it may request only a prefix of `pages`.
   */
  datatype Chain = Chain(pages: seq<string>, productUrls: seq<string>, end: ChainEnd)

  function Walk(site: Site, url: string, fuel: nat): (w: Chain)
    ensures |w.pages| <= fuel
    ensures w.end == FuelExhausted ==> |w.pages| == fuel
    ensures fuel > 0 ==> w.pages != [] && w.pages[0] == url
    decreases fuel
  {
    if fuel == 0 then Chain([], [], FuelExhausted)
    else
      match FetchListing(site.web(url))
      case ListingRaised => Chain([url], [], ListingFailed)
      case ListingPage(page) =>
        var here := PageUrls(site.join, url, page.products);
        if page.next.None? then Chain([url], here, LastPage)
        else
          var rest := Walk(site, FullUrl(site.join, url, page.next.value), fuel - 1);
          Chain([url] + rest.pages, here + rest.productUrls, rest.end)
  }

  /** The result of one product pass over a whole chain. */
  function Finish(s: Scan, end: ChainEnd): CrawlResult
  {
    var outcome :=
      if s.raised then Raised
      else match end
        case LastPage => Done(s.records)
        case ListingFailed => Raised
        case FuelExhausted => OutOfFuel;
    CrawlResult(outcome, s.visited, s.fetched)
  }

  // ---------------------------------------------------------------------------
  // Sequences as sets

  function Elems(s: seq<string>): set<string>
  {
    set x | x in s
  }

  predicate NoDup(s: seq<string>)
  {
    forall i, j :: 0 <= i < j < |s| ==> s[i] != s[j]
  }

  /** The records a resolver gives for `urls`, in order, skipping the ones without a record. */
  function Collect(product: string -> ProductFetch, urls: seq<string>): (rs: seq<Dict>)
    ensures |rs| <= |urls|
  {
    if urls == [] then []
    else
      var last := product(urls[|urls| - 1]);
      Collect(product, urls[..|urls| - 1]) + if last.Product? then [last.record] else []
  }

  /** Every record collected is the record of one of the URLs. */
  lemma {:induction false} CollectFrom(product: string -> ProductFetch, urls: seq<string>)
    ensures forall r :: r in Collect(product, urls) ==> exists u :: u in urls && product(u) == Product(r)
  {
    if urls != [] {
      var init := urls[..|urls| - 1];
      CollectFrom(product, init);
      forall r | r in Collect(product, urls)
        ensures exists u :: u in urls && product(u) == Product(r)
      {
        if r in Collect(product, init) {
          var u :| u in init && product(u) == Product(r);
          assert u in urls;
        } else {
          assert product(urls[|urls| - 1]) == Product(r);
        }
      }
    }
  }

  /** Each record holds, under `key`, one of `urls`; no two records hold the same. */
  ghost predicate TaggedBy(rs: seq<Dict>, key: Key, urls: seq<string>)
  {
    && (forall i :: 0 <= i < |rs| ==> key in rs[i] && rs[i][key].Str? && rs[i][key].s in urls)
    && (forall i, j :: 0 <= i < j < |rs| ==> key in rs[i] && key in rs[j] ==> rs[i][key] != rs[j][key])
  }

  /**
   * When every record a resolver gives carries its own URL under `key`, the records
   * collected from distinct URLs carry distinct URLs, each one of those collected.
   */
  lemma {:induction false} CollectTagged(product: string -> ProductFetch, urls: seq<string>, key: Key)
    requires NoDup(urls)
    requires forall u :: product(u).Product? ==> key in product(u).record && product(u).record[key] == Str(u)
    ensures TaggedBy(Collect(product, urls), key, urls)
  {
    if urls != [] {
      var init, last := urls[..|urls| - 1], urls[|urls| - 1];
      assert NoDup(init);
      CollectTagged(product, init, key);
      var before := Collect(product, init);
      assert TaggedBy(before, key, init);
      assert forall x :: x in init ==> x in urls;
      assert last !in init;
      if product(last).Product? {
        var rs := before + [product(last).record];
        assert Collect(product, urls) == rs;
        assert forall i :: 0 <= i < |before| ==> rs[i] == before[i];
        assert TaggedBy(rs, key, urls);
      } else {
        assert Collect(product, urls) == before;
      }
    }
  }

  lemma {:induction false} NoDupCard(s: seq<string>)
    requires NoDup(s)
    ensures |Elems(s)| == |s|
  {
    if s != [] {
      var init := s[..|s| - 1];
      assert NoDup(init);
      NoDupCard(init);
      assert Elems(s) == Elems(init) + {s[|s| - 1]};
      assert s[|s| - 1] !in Elems(init);
    }
  }

  lemma {:induction false} SubsetCard(a: set<string>, b: set<string>)
    requires a <= b
    ensures |a| <= |b|
  {
    if a != {} {
      var x :| x in a;
      SubsetCard(a - {x}, b - {x});
    }
  }

  // ---------------------------------------------------------------------------
  // Facts about one product pass

  lemma {:induction false} VisitAllAppend(product: string -> ProductFetch, s: Scan, a: seq<string>, b: seq<string>)
    ensures VisitAll(product, s, a + b) == VisitAll(product, VisitAll(product, s, a), b)
    decreases |b|
  {
    if b != [] {
      assert (a + b)[..|a + b| - 1] == a + b[..|b| - 1];
      VisitAllAppend(product, s, a, b[..|b| - 1]);
    } else {
      assert a + b == a;
    }
  }

  /** Once a fetch has raised, the rest of the loop never runs. */
  lemma {:induction false} VisitAllRaised(product: string -> ProductFetch, s: Scan, urls: seq<string>)
    requires s.raised
    ensures VisitAll(product, s, urls) == s
    decreases |urls|
  {
    if urls != [] {
      VisitAllRaised(product, s, urls[..|urls| - 1]);
    }
  }

  /** The loop over a prefix one link longer is one more iteration. */
  lemma VisitAllStep(product: string -> ProductFetch, s: Scan, urls: seq<string>, i: nat)
    requires i < |urls|
    ensures VisitAll(product, s, urls[..i + 1]) == Visit(product, VisitAll(product, s, urls[..i]), urls[i])
  {
    assert urls[..i + 1][..i] == urls[..i];
  }

  /** A loop whose first `k` iterations raised has the result of those iterations. */
  lemma RaisedPrefix(product: string -> ProductFetch, s: Scan, urls: seq<string>, k: nat)
    requires k <= |urls| && VisitAll(product, s, urls[..k]).raised
    ensures VisitAll(product, s, urls) == VisitAll(product, s, urls[..k])
  {
    assert urls == urls[..k] + urls[k..];
    VisitAllAppend(product, s, urls[..k], urls[k..]);
    VisitAllRaised(product, VisitAll(product, s, urls[..k]), urls[k..]);
  }

  function Shift(records: seq<Dict>, fetched: seq<string>, t: Scan): Scan
  {
    t.(records := records + t.records, fetched := fetched + t.fetched)
  }

  /** Records and fetches already made only sit in front of what the loop adds. */
  lemma {:induction false} VisitAllShift(product: string -> ProductFetch, v: set<string>, records: seq<Dict>,
                                         fetched: seq<string>, urls: seq<string>)
    ensures VisitAll(product, Scan(v, records, fetched, false), urls)
         == Shift(records, fetched, VisitAll(product, Start(v), urls))
    decreases |urls|
  {
    if urls != [] {
      var init, u := urls[..|urls| - 1], urls[|urls| - 1];
      VisitAllShift(product, v, records, fetched, init);
      var t := VisitAll(product, Start(v), init);
      if product(u).Product? {
        assert records + (t.records + [product(u).record]) == (records + t.records) + [product(u).record];
      }
      assert fetched + (t.fetched + [u]) == (fetched + t.fetched) + [u];
    }
  }

  /**
   * What one product pass from visited set `v` over `urls` leaves behind.
   * The visited set grows by exactly the URLs fetched, each fetched once, none of them
   * already visited before; the records are those of the fetched URLs in fetch order; the
   * pass raised exactly when a fetched URL raised; a pass that did not raise has marked
   * every URL it met as visited, whether or not it gave a record.
   */
  ghost predicate ScanFacts(product: string -> ProductFetch, v: set<string>, urls: seq<string>, t: Scan)
  {
    && t.visited == v + Elems(t.fetched)
    && NoDup(t.fetched)
    && (forall u :: u in t.fetched ==> u !in v && u in urls)
    && t.records == Collect(product, t.fetched)
    && (t.raised <==> exists u :: u in t.fetched && product(u).ProductRaised?)
    && (!t.raised ==> Elems(urls) <= t.visited)
  }

  /** A URL the loop skips (after a raise, or already visited) leaves the facts in place. */
  lemma VisitSkipFacts(product: string -> ProductFetch, v: set<string>, urls: seq<string>, t: Scan, u: string)
    requires ScanFacts(product, v, urls, t)
    requires t.raised || u in t.visited
    ensures ScanFacts(product, v, urls + [u], Visit(product, t, u))
  {
    assert Elems(urls + [u]) == Elems(urls) + {u};
  }

  lemma NoDupSnoc(s: seq<string>, u: string)
    requires NoDup(s) && u !in s
    ensures NoDup(s + [u])
  {
  }

  /** A URL the loop fetches extends the facts by that URL. */
  lemma VisitFreshFacts(product: string -> ProductFetch, v: set<string>, urls: seq<string>, t: Scan, u: string)
    requires ScanFacts(product, v, urls, t)
    requires !t.raised && u !in t.visited
    ensures ScanFacts(product, v, urls + [u], Visit(product, t, u))
  {
    var t' := Visit(product, t, u);
    var fs := t.fetched + [u];
    assert t'.fetched == fs && t'.visited == t.visited + {u};
    assert Elems(fs) == Elems(t.fetched) + {u};
    assert Elems(urls + [u]) == Elems(urls) + {u};
    assert u !in t.fetched;
    NoDupSnoc(t.fetched, u);
    assert fs[..|fs| - 1] == t.fetched;
    assert t'.records == Collect(product, fs);
    if product(u).ProductRaised? {
      assert u in fs;
    } else {
      assert !exists x :: x in t.fetched && product(x).ProductRaised?;
      assert forall x :: x in fs ==> x in t.fetched || x == u;
    }
  }

  lemma {:induction false} VisitAllFacts(product: string -> ProductFetch, v: set<string>, urls: seq<string>)
    ensures ScanFacts(product, v, urls, VisitAll(product, Start(v), urls))
    decreases |urls|
  {
    if urls != [] {
      var init, u := urls[..|urls| - 1], urls[|urls| - 1];
      VisitAllFacts(product, v, init);
      var t := VisitAll(product, Start(v), init);
      assert urls == init + [u];
      if t.raised || u in t.visited {
        VisitSkipFacts(product, v, init, t, u);
      } else {
        VisitFreshFacts(product, v, init, t, u);
      }
    } else {
      assert Elems(urls) == {};
    }
  }

  // ---------------------------------------------------------------------------
  // The crawl is one product pass over its chain of pages

  lemma {:induction false} ThenFinish(product: string -> ProductFetch, s: Scan, rest: seq<string>, end: ChainEnd)
    requires !s.raised
    ensures Then(s.records, s.fetched, Finish(VisitAll(product, Start(s.visited), rest), end))
         == Finish(VisitAll(product, s, rest), end)
  {
    VisitAllShift(product, s.visited, s.records, s.fetched, rest);
    assert s == Scan(s.visited, s.records, s.fetched, false);
  }

  /** The product URLs listed on the page at `url` (none when its request raised). */
  function PageLinks(site: Site, url: string): seq<string>
  {
    match FetchListing(site.web(url))
    case ListingRaised => []
    case ListingPage(page) => PageUrls(site.join, url, page.products)
  }

  /** A page that ends its call ends the chain's pass the same way. */
  lemma PageStops(site: Site, url: string, v: set<string>, fuel: nat)
    requires fuel > 0 && CrawlPage(site, url, v).Stopped?
    ensures CrawlPage(site, url, v).result
         == Finish(VisitAll(site.product, Start(v), Walk(site, url, fuel).productUrls), Walk(site, url, fuel).end)
  {
    var w := Walk(site, url, fuel);
    if FetchListing(site.web(url)).ListingPage? {
      var page := FetchListing(site.web(url)).page;
      var here := PageUrls(site.join, url, page.products);
      var s := VisitAll(site.product, Start(v), here);
      if page.next.Some? {
        var rest := Walk(site, FullUrl(site.join, url, page.next.value), fuel - 1);
        assert s.raised;
        assert w.productUrls == here + rest.productUrls;
        VisitAllAppend(site.product, Start(v), here, rest.productUrls);
        VisitAllRaised(site.product, s, rest.productUrls);
      }
    }
  }

  /** A page that hands over to the next one leaves the pass it started un-raised. */
  lemma PageContinues(site: Site, url: string, v: set<string>, fuel: nat)
    requires fuel > 0 && CrawlPage(site, url, v).Next?
    ensures var p := CrawlPage(site, url, v);
            var rest := Walk(site, p.next, fuel - 1);
            && Walk(site, url, fuel).productUrls == PageLinks(site, url) + rest.productUrls
            && Walk(site, url, fuel).end == rest.end
            && VisitAll(site.product, Start(v), PageLinks(site, url)) == Scan(p.visited, p.records, p.fetched, false)
  {
  }

  /** The step of `CrawlIsScanOfWalk` for a page that hands over to the next one. */
  lemma CrawlContinues(site: Site, url: string, v: set<string>, fuel: nat)
    requires fuel > 0 && CrawlPage(site, url, v).Next?
    requires var p := CrawlPage(site, url, v);
             var rest := Walk(site, p.next, fuel - 1);
             Crawl(site, p.next, p.visited, fuel - 1) == Finish(VisitAll(site.product, Start(p.visited), rest.productUrls), rest.end)
    ensures Crawl(site, url, v, fuel)
         == Finish(VisitAll(site.product, Start(v), Walk(site, url, fuel).productUrls), Walk(site, url, fuel).end)
  {
    var p := CrawlPage(site, url, v);
    var rest := Walk(site, p.next, fuel - 1);
    var s := Scan(p.visited, p.records, p.fetched, false);
    PageContinues(site, url, v, fuel);
    ThenFinish(site.product, s, rest.productUrls, rest.end);
    VisitAllAppend(site.product, Start(v), PageLinks(site, url), rest.productUrls);
  }

  /**
   * The recursive crawl equals one left-to-right product pass over the product URLs
   * of every page walked, ended the way the page chain ends: pagination only
   * concatenates, and the visited set is threaded through unchanged between pages.
   */
  lemma {:induction false} CrawlIsScanOfWalk(site: Site, url: string, v: set<string>, fuel: nat)
    ensures Crawl(site, url, v, fuel)
         == Finish(VisitAll(site.product, Start(v), Walk(site, url, fuel).productUrls), Walk(site, url, fuel).end)
    decreases fuel
  {
    if fuel > 0 {
      var p := CrawlPage(site, url, v);
      if p.Stopped? {
        PageStops(site, url, v, fuel);
      } else {
        CrawlIsScanOfWalk(site, p.next, p.visited, fuel - 1);
        CrawlContinues(site, url, v, fuel);
      }
    }
  }

  // ---------------------------------------------------------------------------
  // Properties of the crawl

  /**
   * The visited set never shrinks and grows by exactly the product URLs fetched; a URL
   * visited before the call (from an earlier call too: the set is shared) is never
   * fetched again; no URL is fetched twice; a URL stays visited even when its fetch gave
   * no record or the crawl raised; every fetched URL was listed on a page walked.
   */
  lemma {:induction false} CrawlVisited(site: Site, url: string, v: set<string>, fuel: nat)
    ensures var c := Crawl(site, url, v, fuel);
            && v <= c.visited
            && c.visited == v + Elems(c.fetched)
            && NoDup(c.fetched)
            && (forall u :: u in c.fetched ==> u !in v && u in Walk(site, url, fuel).productUrls)
  {
    CrawlIsScanOfWalk(site, url, v, fuel);
    VisitAllFacts(site.product, v, Walk(site, url, fuel).productUrls);
  }

  /**
   * A crawl that finishes returns the records of the fetched URLs in fetch order (page
   * by page, link order within a page), has marked every product URL it met as visited,
   * and returns no more records than there were distinct, not yet visited product URLs.
   */
  lemma {:induction false} CrawlRecords(site: Site, url: string, v: set<string>, fuel: nat)
    ensures var c := Crawl(site, url, v, fuel);
            var urls := Walk(site, url, fuel).productUrls;
            c.outcome.Done? ==>
              && c.outcome.records == Collect(site.product, c.fetched)
              && Elems(urls) <= c.visited
              && |c.outcome.records| <= |c.fetched| <= |Elems(urls) - v|
  {
    var c := Crawl(site, url, v, fuel);
    var urls := Walk(site, url, fuel).productUrls;
    CrawlIsScanOfWalk(site, url, v, fuel);
    VisitAllFacts(site.product, v, urls);
    NoDupCard(c.fetched);
    SubsetCard(Elems(c.fetched), Elems(urls) - v);
  }

  /**
   * How a crawl ends: it raises exactly when a listing fetch raised or a product fetch
   * raised (and then returns no records at all); it runs out of fuel exactly when the
   * chain of pages is longer than the fuel and nothing raised; otherwise it is done.
   */
  lemma {:induction false} CrawlOutcome(site: Site, url: string, v: set<string>, fuel: nat)
    ensures var c := Crawl(site, url, v, fuel);
            var w := Walk(site, url, fuel);
            var productRaised := exists u :: u in c.fetched && site.product(u).ProductRaised?;
            && (c.outcome.Raised? <==> w.end == ListingFailed || productRaised)
            && (c.outcome.OutOfFuel? <==> w.end == FuelExhausted && !productRaised)
            && (c.outcome.Done? <==> w.end == LastPage && !productRaised)
  {
    CrawlIsScanOfWalk(site, url, v, fuel);
    VisitAllFacts(site.product, v, Walk(site, url, fuel).productUrls);
  }

  /** A crawl that ended within its fuel ends the same way with any larger fuel. */
  lemma {:induction false} CrawlFuelMonotone(site: Site, url: string, v: set<string>, fuel: nat, more: nat)
    requires fuel <= more
    requires !Crawl(site, url, v, fuel).outcome.OutOfFuel?
    ensures Crawl(site, url, v, more) == Crawl(site, url, v, fuel)
    decreases fuel
  {
    if FetchListing(site.web(url)).ListingPage? && FetchListing(site.web(url)).page.next.Some? {
      var page := FetchListing(site.web(url)).page;
      var s := VisitAll(site.product, Start(v), PageUrls(site.join, url, page.products));
      if !s.raised {
        CrawlFuelMonotone(site, FullUrl(site.join, url, page.next.value), s.visited, fuel - 1, more - 1);
      }
    }
  }

  /**
   * A listing page without a "next page" link is the only listing page fetched: the
   * crawl never needs more than the one page of fuel, gives the same result with any
   * fuel, and a crawl that finishes returns just that page's records.
   */
  lemma {:induction false} SinglePage(site: Site, url: string, v: set<string>, fuel: nat)
    requires fuel > 0
    requires site.web(url).Responded? && ListingOf(site.web(url).doc).next.None?
    ensures Walk(site, url, fuel).pages == [url]
    ensures !Crawl(site, url, v, 1).outcome.OutOfFuel?
    ensures Crawl(site, url, v, fuel) == Crawl(site, url, v, 1)
    ensures var c := Crawl(site, url, v, fuel);
            var links := ListingOf(site.web(url).doc).products;
            c.outcome.Done? ==>
              c.outcome.records == VisitAll(site.product, Start(v), PageUrls(site.join, url, links)).records
  {
  }

  /**
   * A "next page" link that resolves back to its own page (or has no href, which
   * `urljoin` resolves to the page itself) is followed forever: the crawl never
   * finishes, whatever the fuel.
   */
  lemma {:induction false} SelfLinkNeverFinishes(site: Site, url: string, v: set<string>, fuel: nat)
    requires site.web(url).Responded?
    requires var next := ListingOf(site.web(url).doc).next;
             next.Some? && FullUrl(site.join, url, next.value) == url
    ensures !Crawl(site, url, v, fuel).outcome.Done?
    decreases fuel
  {
    if fuel > 0 {
      var page := ListingOf(site.web(url).doc);
      var s := VisitAll(site.product, Start(v), PageUrls(site.join, url, page.products));
      if !s.raised {
        SelfLinkNeverFinishes(site, url, s.visited, fuel - 1);
      }
    }
  }

  /**
   * Two crawls sharing the visited set, as the module-global set makes every pair of
   * calls in one process: the second never fetches a product the first one visited.
   */
  lemma {:induction false} LaterCallSkipsEarlier(site: Site, first: string, second: string,
                                                 v: set<string>, fuel1: nat, fuel2: nat)
    ensures var c1 := Crawl(site, first, v, fuel1);
            var c2 := Crawl(site, second, c1.visited, fuel2);
            && c1.visited <= c2.visited
            && forall u :: u in c2.fetched ==> u !in c1.fetched && u !in v
  {
    var c1 := Crawl(site, first, v, fuel1);
    CrawlVisited(site, first, v, fuel1);
    CrawlVisited(site, second, c1.visited, fuel2);
  }

  lemma {:induction false} ThenThen(a: seq<Dict>, fa: seq<string>, b: seq<Dict>, fb: seq<string>, c: CrawlResult)
    ensures Then(a, fa, Then(b, fb, c)) == Then(a + b, fa + fb, c)
  {
    assert fa + (fb + c.fetched) == (fa + fb) + c.fetched;
    if c.outcome.Done? {
      assert a + (b + c.outcome.records) == (a + b) + c.outcome.records;
    }
  }

  /** The loop form computes what the recursion does. */
  lemma {:induction false} LoopIsCrawl(site: Site, url: string, visited: set<string>, fuel: nat,
                                       records: seq<Dict>, fetched: seq<string>)
    ensures CrawlLoop(site, url, visited, fuel, records, fetched) == Then(records, fetched, Crawl(site, url, visited, fuel))
    decreases fuel
  {
    if fuel > 0 && CrawlPage(site, url, visited).Next? {
      var p := CrawlPage(site, url, visited);
      LoopIsCrawl(site, p.next, p.visited, fuel - 1, records + p.records, fetched + p.fetched);
      ThenThen(records, fetched, p.records, p.fetched, Crawl(site, p.next, p.visited, fuel - 1));
    }
  }

  /** Started with nothing accumulated, the loop form is the crawl itself. */
  lemma CrawlLoopIsCrawl(site: Site, url: string, visited: set<string>, fuel: nat)
    ensures CrawlLoop(site, url, visited, fuel, [], []) == Crawl(site, url, visited, fuel)
  {
    var c := Crawl(site, url, visited, fuel);
    LoopIsCrawl(site, url, visited, fuel, [], []);
    assert [] + c.fetched == c.fetched;
    if c.outcome.Done? {
      assert [] + c.outcome.records == c.outcome.records;
    }
  }

  /** Appending to a log in two steps. */
  lemma AppendTwice<T>(log: seq<T>, first: seq<T>, second: seq<T>)
    ensures log + first + second == log + (first + second)
  {
  }

  // ---------------------------------------------------------------------------
  // The crawler as the source runs it: a visited set that persists across calls

  /** How one call's own page ends, as the crawler object reports it: the call's outcome, or a hand-over. */
  datatype PageEnd = Stop(outcome: Outcome) | Continue(records: seq<Dict>, next: string)

  /**
   * The module-global `visited_urls`, with the log of product fetches it has caused.
   * `ParseListing` follows the pagination with a loop instead of recursion.
   */
  class Crawler {
    var visited: set<string>
    ghost var fetchLog: seq<string>

    constructor ()
      ensures visited == {} && fetchLog == []
    {
      visited := {};
      fetchLog := [];
    }

    /**
     * One iteration of the product loop (Scrappy.py:122-128): a visited URL is skipped;
     * a new one is marked visited and logged before it is resolved, and its record kept.
     */
    method VisitOne(site: Site, u: string, records: seq<Dict>, ghost fetched: seq<string>, ghost log0: seq<string>)
      returns (raised: bool, records': seq<Dict>, ghost fetched': seq<string>)
      requires fetchLog == log0 + fetched
      modifies this
      ensures Visit(site.product, Scan(old(visited), records, fetched, false), u) == Scan(visited, records', fetched', raised)
      ensures fetchLog == log0 + fetched'
    {
      raised, records', fetched' := false, records, fetched;
      if u !in visited {
        visited := visited + {u};
        fetchLog := fetchLog + [u];
        fetched' := fetched + [u];
        match site.product(u)
        case ProductRaised =>
          raised := true;
        case NoProduct =>
        case Product(r) =>
          records' := records + [r];
      }
    }

    /**
     * The loop over one listing page's product links (Scrappy.py:121-128): join, skip
     * if visited, mark visited, resolve, keep the record. A raising resolver ends it.
     */
    method VisitLinks(site: Site, base: string, links: seq<Anchor>) returns (raised: bool, records: seq<Dict>)
      modifies this
      ensures var s := VisitAll(site.product, Start(old(visited)), PageUrls(site.join, base, links));
              && raised == s.raised && records == s.records
              && visited == s.visited && fetchLog == old(fetchLog) + s.fetched
    {
      ghost var v0, log0 := visited, fetchLog;
      ghost var urls := PageUrls(site.join, base, links);
      ghost var fetched: seq<string> := [];
      records := [];
      var i := 0;
      while i < |links|
        invariant 0 <= i <= |links|
        invariant VisitAll(site.product, Start(v0), urls[..i]) == Scan(visited, records, fetched, false)
        invariant fetchLog == log0 + fetched
      {
        var fullUrl := FullUrl(site.join, base, links[i]);
        VisitAllStep(site.product, Start(v0), urls, i);
        raised, records, fetched := VisitOne(site, fullUrl, records, fetched, log0);
        if raised {
          RaisedPrefix(site.product, Start(v0), urls, i + 1);
          return;
        }
        i := i + 1;
      }
      assert urls[..i] == urls;
      raised := false;
    }

    /** `CrawlPage`, run against the shared visited set. */
    method VisitPage(site: Site, url: string) returns (end: PageEnd, ghost fetched: seq<string>)
      modifies this
      ensures CrawlPage(site, url, old(visited)) ==
              match end
              case Stop(outcome) => Stopped(CrawlResult(outcome, visited, fetched))
              case Continue(records, next) => Next(records, fetched, visited, next)
      ensures fetchLog == old(fetchLog) + fetched
    {
      var resp := site.web(url);
      if resp.NetworkError? {
        return Stop(Raised), [];
      }
      var page := ListingOf(resp.doc);
      ghost var log0 := fetchLog;
      var raised, records := VisitLinks(site, url, page.products);
      fetched := fetchLog[|log0|..];
      assert fetchLog == log0 + fetched;
      if raised {
        end := Stop(Raised);
      } else if page.next.None? {
        end := Stop(Done(records));
      } else {
        end := Continue(records, FullUrl(site.join, url, page.next.value));
      }
    }

    /**
     * `parse_listing(url)` with the shared visited set, fetching at most `fuel` listing
     * pages; the recursion on the "next page" link becomes a loop with an accumulator.
     */
    method ParseListing(site: Site, url: string, fuel: nat) returns (outcome: Outcome)
      modifies this
      ensures var c := Crawl(site, url, old(visited), fuel);
              outcome == c.outcome && visited == c.visited && fetchLog == old(fetchLog) + c.fetched
    {
      ghost var log0 := fetchLog;
      ghost var target := Crawl(site, url, visited, fuel);
      CrawlLoopIsCrawl(site, url, visited, fuel);
      ghost var fetchedBefore: seq<string> := [];
      var recordsBefore: seq<Dict> := [];
      var current := url;
      var pagesLeft := fuel;
      while pagesLeft > 0
        invariant CrawlLoop(site, current, visited, pagesLeft, recordsBefore, fetchedBefore) == target
        invariant fetchLog == log0 + fetchedBefore
        decreases pagesLeft
      {
        var end, fetchedHere := VisitPage(site, current);
        AppendTwice(log0, fetchedBefore, fetchedHere);
        match end
        case Stop(outcome) =>
          return if outcome.Done? then Done(recordsBefore + outcome.records) else outcome;
        case Continue(records, next) =>
          recordsBefore := recordsBefore + records;
          fetchedBefore := fetchedBefore + fetchedHere;
          current := next;
          pagesLeft := pagesLeft - 1;
      }
      outcome := OutOfFuel;
    }
  }
}
