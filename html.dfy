/**
 * A parsed HTML document as the scraper sees it through BeautifulSoup: for each CSS
 * selector it queries, the matching elements in document order. An element has its
 * text nodes (in order) and its attributes.
 */
module Html {
  import opened Wrappers
  import PyStr

  datatype Element = Element(strings: seq<string>, attrs: map<string, string>)

  type Document = map<string, seq<Element>>

  /** `doc.select(sel)`: every match, in document order (none for an unknown selector). */
  function Select(doc: Document, sel: string): seq<Element>
  {
    if sel in doc then doc[sel] else []
  }

  /** `doc.select_one(sel)`: the first match, or `None`. */
  function SelectOne(doc: Document, sel: string): (r: Option<Element>)
    ensures r.None? <==> Select(doc, sel) == []
    ensures r.Some? ==> r.value == Select(doc, sel)[0]
  {
    var all := Select(doc, sel);
    if all == [] then None else Some(all[0])
  }

  /** `e.attrs.get(name)`. */
  function Attr(e: Element, name: string): Option<string>
  {
    if name in e.attrs then Some(e.attrs[name]) else None
  }

  function Concat(pieces: seq<string>): string
  {
    if pieces == [] then [] else pieces[0] + Concat(pieces[1..])
  }

  /** `e.text`: all text nodes joined, whitespace kept. */
  function Text(e: Element): string
  {
    Concat(e.strings)
  }

  /**
   * `e.get_text(strip=True)`: every text node stripped, the empty ones dropped, the
   * rest joined with no separator. The result never starts or ends with whitespace.
   */
  function StrippedText(e: Element): (r: string)
    ensures PyStr.IsStripped(r)
  {
    StrippedConcat(e.strings)
  }

  function StrippedConcat(pieces: seq<string>): (r: string)
    ensures PyStr.IsStripped(r)
  {
    if pieces == [] then []
    else
      var rest := StrippedConcat(pieces[1..]);
      PyStr.ConcatStripped(PyStr.Strip(pieces[0]), rest);
      PyStr.Strip(pieces[0]) + rest
  }
}

/** The JSON values that end up in the scraper's product dictionaries. */
module Json {
  import opened Wrappers

  datatype Value = Str(s: string) | Num(n: real) | Null

  /** The keys the scraper's dictionaries use. */
  datatype Key = Title | Price | Reviews | Rating | Discount | Image | Url | Description | Bought

  /** The key as it appears in the serialised dictionary. */
  function Name(k: Key): string
  {
    match k
    case Title => "title"
    case Price => "price"
    case Reviews => "reviews"
    case Rating => "rating"
    case Discount => "discount"
    case Image => "image"
    case Url => "url"
    case Description => "description"
    case Bought => "bought"
  }

  type Dict = map<Key, Value>

  /** A Python `str | None` as a JSON value. */
  function OptStr(o: Option<string>): (v: Value)
    ensures v.Null? <==> o.None?
    ensures o.Some? ==> v == Str(o.value)
  {
    if o.Some? then Str(o.value) else Null
  }
}

/**
 * `requests.get(url)` as seen by the scraper: it either raises (connection failure,
 * invalid URL, ...) or yields a status code and a body, parsed here directly into a
 * document. The web is a fixed function from URL to response.
 */
module Http {
  import opened Html

  datatype Response = NetworkError | Responded(status: int, doc: Document)

  type Web = string -> Response

  /**
   * `response.raise_for_status()`: it raises for a client error (400-499) and for a
   * server error (500-599), and for nothing else.
   */
  predicate RaisesForStatus(status: int): (r: bool)
    ensures r <==> 400 <= status < 600
    ensures 100 <= status < 400 ==> !r
  {
    if 400 <= status < 500 then true
    else 500 <= status < 600
  }
}
