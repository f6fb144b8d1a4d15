/** The record-to-tree mapper: builds the RSS 2.0 / iTunes element tree
    from a loaded podcast document. */
module Feed {
  import opened Wrappers
  import opened Xml
  import opened Podcast

  const RssVersion: string := "2.0"
  const ItunesNamespace: string := "http://www.itunes.com/dtds/podcast-1.0.dtd"
  const ContentNamespace: string := "http://purl.org/rss/1.0/modules/content/"

  /** The MIME type written on every enclosure. */
  const EnclosureType: string := "audio/mpeg"

  /** The attributes of the `rss` root, in insertion order. */
  const RssAttrs: seq<Attr> :=
    [Attr("version", RssVersion), Attr("xmlns:itunes", ItunesNamespace), Attr("xmlns:content", ContentNamespace)]

  /** The tags of the nine metadata children of `channel`, in order. */
  const MetadataTags: seq<string> :=
    ["title", "format", "subtitle", "itunes:author", "description", "itunes:image", "language", "link", "itunes:category"]

  /** The tags of the six children of every `item`, in order. */
  const ItemTags: seq<string> :=
    ["title", "itunes:author", "description", "itunes:duration", "pubDate", "enclosure"]

  /** Every key the builder needs is present: each channel key, the episode
      list, and each episode key in every episode. */
  predicate RequiredKeysPresent(d: Document) {
    && HasKeys(d.channel, ChannelKeys)
    && d.item.Some?
    && forall e :: 0 <= e < |d.item.value| ==> HasKeys(d.item.value[e], EpisodeKeys)
  }

  /** The `item` element of one episode; `link` is the channel's base link
      and `author` the channel's author. */
  function BuildItem(link: string, author: string, episode: Fields): (r: Result<Element, Error>)
    ensures r.Success? <==> HasKeys(episode, EpisodeKeys)
    ensures r.Failure? ==> exists i :: FirstMiss(KeyTrace(EpisodeKeys, episode), i) && r.error == KeyError(EpisodeKeys[i])
  {
    var v :- LookupAll(EpisodeKeys, episode);
    var title, description, duration, published, file, length := v[0], v[1], v[2], v[3], v[4], v[5];
    Success(Element("item", [], None, [
      Leaf("title", title),
      Leaf("itunes:author", author),
      Leaf("description", description),
      Leaf("itunes:duration", duration),
      Leaf("pubDate", published),
      Empty("enclosure", [Attr("url", link + file), Attr("type", EnclosureType), Attr("length", length)])
    ]))
  }

  /** The `item` elements of an episode list, in order; fails with the
      error of the first episode that lacks a key. */
  function BuildItems(link: string, author: string, episodes: seq<Fields>): (r: Result<seq<Element>, Error>)
    ensures r.Success? <==> forall e :: 0 <= e < |episodes| ==> HasKeys(episodes[e], EpisodeKeys)
    ensures r.Success? ==> |r.value| == |episodes|
    ensures r.Success? ==> forall e :: 0 <= e < |episodes| ==> BuildItem(link, author, episodes[e]) == Success(r.value[e])
    ensures r.Failure? ==> exists e :: 0 <= e < |episodes| && BuildItem(link, author, episodes[e]) == Failure(r.error)
                                       && forall f :: 0 <= f < e ==> BuildItem(link, author, episodes[f]).Success?
  {
    if |episodes| == 0 then Success([])
    else
      var first :- BuildItem(link, author, episodes[0]);
      var rest := BuildItems(link, author, episodes[1..]);
      BuildItemsStep(link, author, episodes, first, rest);
      if rest.Failure? then Failure(rest.error) else Success([first] + rest.value)
  }

  /** How one step of `BuildItems` extends the result for the tail. */
  lemma BuildItemsStep(link: string, author: string, episodes: seq<Fields>, first: Element, rest: Result<seq<Element>, Error>)
    requires |episodes| > 0 && BuildItem(link, author, episodes[0]) == Success(first)
    requires rest.Success? <==> forall e :: 0 <= e < |episodes[1..]| ==> HasKeys(episodes[1..][e], EpisodeKeys)
    requires rest.Success? ==> |rest.value| == |episodes[1..]|
    requires rest.Success? ==> forall e :: 0 <= e < |episodes[1..]| ==> BuildItem(link, author, episodes[1..][e]) == Success(rest.value[e])
    requires rest.Failure? ==> exists e :: 0 <= e < |episodes[1..]| && BuildItem(link, author, episodes[1..][e]) == Failure(rest.error)
                                          && forall f :: 0 <= f < e ==> BuildItem(link, author, episodes[1..][f]).Success?
    ensures rest.Success? <==> forall e :: 0 <= e < |episodes| ==> HasKeys(episodes[e], EpisodeKeys)
    ensures rest.Success? ==> forall e :: 0 <= e < |episodes| ==> BuildItem(link, author, episodes[e]) == Success(([first] + rest.value)[e])
    ensures rest.Failure? ==> exists e :: 0 <= e < |episodes| && BuildItem(link, author, episodes[e]) == Failure(rest.error)
                                          && forall f :: 0 <= f < e ==> BuildItem(link, author, episodes[f]).Success?
  {
  }

  /** The value of the `item` key, or a key error when it is absent. */
  function Episodes(d: Document): (r: Result<seq<Fields>, Error>)
    ensures r.Success? <==> d.item.Some?
    ensures r.Success? ==> r.value == d.item.value
    ensures r.Failure? ==> r.error == KeyError(ItemKey)
  {
    match d.item
    case Some(episodes) => Success(episodes)
    case None => Failure(KeyError(ItemKey))
  }

  /** The whole feed: an `rss` root holding one `channel`, whose children are
      the nine metadata elements followed by one `item` per episode. Fails
      with the first missing key, in the order the keys are read. */
  function BuildFeed(d: Document): (r: Result<Element, Error>)
    ensures r.Success? <==> RequiredKeysPresent(d)
    ensures r.Success? ==> && r.value.tag == "rss" && r.value.attrs == RssAttrs && r.value.text == None
                           && |r.value.children| == 1 && r.value.children[0].tag == "channel"
                           && |r.value.children[0].children| == |MetadataTags| + |d.item.value|
  {
    var v :- LookupAll(ChannelKeys, d.channel);
    var link, title, format, subtitle, author, description, image, language, category :=
      v[0], v[1], v[2], v[3], v[4], v[5], v[6], v[7], v[8];
    var episodes :- Episodes(d);
    var items :- BuildItems(link, author, episodes);
    var metadata := Metadata(link, title, format, subtitle, author, description, image, language, category);
    Success(Element("rss", RssAttrs, None, [Element("channel", [], None, metadata + items)]))
  }

  /** The nine metadata children of `channel`, in order; the cover art URL
      is the base link followed directly by the image path. */
  function Metadata(link: string, title: string, format: string, subtitle: string, author: string,
                    description: string, image: string, language: string, category: string): seq<Element>
  {
    [
      Leaf("title", title),
      Leaf("format", format),
      Leaf("subtitle", subtitle),
      Leaf("itunes:author", author),
      Leaf("description", description),
      Empty("itunes:image", [Attr("href", link + image)]),
      Leaf("language", language),
      Leaf("link", link),
      Empty("itunes:category", [Attr("text", category)])
    ]
  }

  /** The channel element of a built feed. */
  function Channel(feed: Element): Element
    requires |feed.children| > 0
  {
    feed.children[0]
  }
}
