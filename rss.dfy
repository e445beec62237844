/**
 * The RSS fetcher of internal/rss/rss.go: one HTTP GET of a feed URL, a status
 * check, reading and XML-decoding the body, and HTML-unescaping of the channel's
 * text fields.
 *
 * The network, the body read, the XML decoder and the HTML unescaper are not
 * modelled: the exchange with the server is a function `transport` from the
 * request to what came back, the decoder a function `decode` from the body bytes
 * to a document (or nothing when the XML is malformed), the unescaper a function
 * `unescape` on strings.
 */
module Rss {
  import opened Wrappers

  newtype byte = x: int | 0 <= x < 256

  /** An `<item>` of the channel: the four elements the decoder keeps. */
  datatype Item = Item(title: string, link: string, description: string, pubDate: string)

  /** The `<channel>` element. */
  datatype Channel = Channel(title: string, link: string, description: string, items: seq<Item>)

  /** A decoded RSS document. */
  datatype Feed = Feed(channel: Channel)

  /** The client identifier every request carries. */
  const UserAgent: string := "Gator/0.0.0"

  /** An outgoing HTTP request: method, URL and headers. */
  datatype Request = Request(verb: string, url: string, headers: map<string, string>)

  /**
   * What one fetch attempt produced: the request could not be built from the
   * URL (nothing is sent then; the request value is only the URL's carrier),
   * no response arrived, or a response with a status code and a body that was
   * read completely (`Some`) or failed part-way (`None`).
   */
  datatype Exchange =
    | Unbuildable
    | NoResponse
    | Response(statusCode: int, body: Option<seq<byte>>)

  /** Why a fetch failed, one case per early return of the fetcher. */
  datatype FetchError =
    | RequestError
    | TransportError
    | BadStatus(statusCode: int)
    | ReadError
    | DecodeError

  /** The request the fetcher sends for `url`: a GET carrying the client identifier. */
  function NewRequest(url: string): Request
  {
    Request("GET", url, map["User-Agent" := UserAgent])
  }

  /**
   * The post-processing applied to a decoded document: channel title and
   * description are replaced by their unescaped forms. The item loop of the
   * fetcher writes to a copy of each item, so items stay as decoded.
   */
  function PostProcessed(decoded: Feed, unescape: string -> string): Feed
  {
    decoded.(channel := decoded.channel.(
      title := unescape(decoded.channel.title),
      description := unescape(decoded.channel.description)))
  }

  /** What fetching `url` yields, as a function of the exchange, decoder and unescaper. */
  function FetchOutcome(
    url: string,
    transport: Request -> Exchange,
    decode: seq<byte> -> Option<Feed>,
    unescape: string -> string): Result<Feed, FetchError>
  {
    match transport(NewRequest(url))
    case Unbuildable => Failure(RequestError)
    case NoResponse => Failure(TransportError)
    case Response(status, body) =>
      if status >= 400 then Failure(BadStatus(status))
      else if body.None? then Failure(ReadError)
      else match decode(body.value)
        case None => Failure(DecodeError)
        case Some(decoded) => Success(PostProcessed(decoded, unescape))
  }

  /** Fetches and decodes the feed at `url`, step by step as the source does. */
  method FetchFeed(
    url: string,
    transport: Request -> Exchange,
    decode: seq<byte> -> Option<Feed>,
    unescape: string -> string)
    returns (r: Result<Feed, FetchError>)
    ensures r == FetchOutcome(url, transport, decode, unescape)
  {
    var request := NewRequest(url);
    var response := transport(request);
    if response.Unbuildable? {
      return Failure(RequestError);
    }
    if response.NoResponse? {
      return Failure(TransportError);
    }
    if response.statusCode >= 400 {
      return Failure(BadStatus(response.statusCode));
    }
    if response.body.None? {
      return Failure(ReadError);
    }
    var data := response.body.value;
    var decoded := decode(data);
    if decoded.None? {
      return Failure(DecodeError);
    }
    var feed := decoded.value;
    feed := feed.(channel := feed.channel.(title := unescape(feed.channel.title)));
    feed := feed.(channel := feed.channel.(description := unescape(feed.channel.description)));
    // The source's item loop updates the loop variable, a copy of the item;
    // `feed` itself is left as it is.
    for i := 0 to |feed.channel.items| {
      var item := feed.channel.items[i];
      item := item.(title := unescape(item.title));
      item := item.(description := unescape(item.description));
    }
    return Success(feed);
  }

  /**
   * A fetch sends at most one request, a GET of `url` with User-Agent
   * "Gator/0.0.0" (none when the URL does not make a request), and its outcome
   * depends only on what comes of that one request.
   */
  lemma FetchSendsOneGet(
    url: string,
    t1: Request -> Exchange,
    t2: Request -> Exchange,
    decode: seq<byte> -> Option<Feed>,
    unescape: string -> string)
    requires t1(Request("GET", url, map["User-Agent" := "Gator/0.0.0"]))
          == t2(Request("GET", url, map["User-Agent" := "Gator/0.0.0"]))
    ensures FetchOutcome(url, t1, decode, unescape) == FetchOutcome(url, t2, decode, unescape)
  {
  }

  /** A status of 400 or more is an error, whatever the body would decode to. */
  lemma BadStatusIsNotDecoded(
    url: string,
    transport: Request -> Exchange,
    d1: seq<byte> -> Option<Feed>,
    d2: seq<byte> -> Option<Feed>,
    unescape: string -> string)
    requires transport(NewRequest(url)).Response?
    requires transport(NewRequest(url)).statusCode >= 400
    ensures FetchOutcome(url, transport, d1, unescape)
         == FetchOutcome(url, transport, d2, unescape)
         == Failure(BadStatus(transport(NewRequest(url)).statusCode))
  {
  }

  /**
   * A fetch succeeds exactly when a response arrived with a status below 400,
   * its body was read and it decoded; a read failure is ReadError and a decode
   * failure DecodeError.
   */
  lemma FetchSucceedsIff(
    url: string,
    transport: Request -> Exchange,
    decode: seq<byte> -> Option<Feed>,
    unescape: string -> string)
    ensures var x := transport(NewRequest(url));
      (FetchOutcome(url, transport, decode, unescape).Success?
       <==> x.Response? && x.statusCode < 400 && x.body.Some? && decode(x.body.value).Some?)
    ensures var x := transport(NewRequest(url));
      (x.Response? && x.statusCode < 400 && x.body.None?
       ==> FetchOutcome(url, transport, decode, unescape) == Failure(ReadError))
    ensures var x := transport(NewRequest(url));
      (x.Response? && x.statusCode < 400 && x.body.Some? && decode(x.body.value).None?
       ==> FetchOutcome(url, transport, decode, unescape) == Failure(DecodeError))
  {
  }

  /**
   * On success the channel title and description are the unescaped decoded
   * values, while the channel link and the items (their number, order and every
   * field) are exactly as decoded.
   */
  lemma SuccessUnescapesChannelOnly(
    url: string,
    transport: Request -> Exchange,
    decode: seq<byte> -> Option<Feed>,
    unescape: string -> string)
    requires FetchOutcome(url, transport, decode, unescape).Success?
    ensures var x := transport(NewRequest(url));
      x.Response? && x.body.Some? && decode(x.body.value).Some? &&
      var raw := decode(x.body.value).value.channel;
      var got := FetchOutcome(url, transport, decode, unescape).value.channel;
      && got.title == unescape(raw.title)
      && got.description == unescape(raw.description)
      && got.link == raw.link
      && got.items == raw.items
  {
  }

  /**
   * An escaped item title survives the fetch: with an unescaper that turns
   * "&amp;" into "&", an item titled "&amp;" is still titled "&amp;" afterwards
   * while the channel title "&amp;" becomes "&".
   */
  lemma ItemTitlesStayEscaped()
    ensures var item := Item("&amp;", "https://example.org/1", "", "");
      var doc := Feed(Channel("&amp;", "https://example.org", "", [item]));
      var unescape := (s: string) => if s == "&amp;" then "&" else s;
      var got := FetchOutcome("https://example.org/rss",
                              _ => Response(200, Some([])), _ => Some(doc), unescape);
      && got.Success?
      && got.value.channel.title == "&"
      && got.value.channel.items[0].title == "&amp;"
      && got.value.channel.items[0].title != unescape(item.title)
  {
  }
}
