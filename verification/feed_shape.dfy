/** The shape and contents of a successfully built feed tree. */
module FeedShape {
  import opened Wrappers
  import opened Xml
  import opened Podcast
  import opened Feed

  /** The root is `rss` with exactly the version and the two namespace
      attributes, no text, and a single bare `channel` child. */
  lemma RootElement(d: Document)
    requires BuildFeed(d).Success?
    ensures BuildFeed(d).value.tag == "rss"
    ensures BuildFeed(d).value.attrs == [
              Attr("version", "2.0"),
              Attr("xmlns:itunes", "http://www.itunes.com/dtds/podcast-1.0.dtd"),
              Attr("xmlns:content", "http://purl.org/rss/1.0/modules/content/")]
    ensures BuildFeed(d).value.text == None
    ensures |BuildFeed(d).value.children| == 1
    ensures Channel(BuildFeed(d).value).tag == "channel"
    ensures Channel(BuildFeed(d).value).attrs == [] && Channel(BuildFeed(d).value).text == None
  {
  }

  /** The nine metadata children of `channel`, in their fixed order, each
      carrying its channel value verbatim; the image URL is the base link
      followed directly by the image path. */
  lemma ChannelMetadata(d: Document)
    requires BuildFeed(d).Success?
    ensures var ch := Channel(BuildFeed(d).value).children;
            var c := d.channel;
            && |ch| >= |MetadataTags|
            && Tags(ch[..|MetadataTags|]) == MetadataTags
            && ch[0] == Leaf("title", c["title"])
            && ch[1] == Leaf("format", c["format"])
            && ch[2] == Leaf("subtitle", c["subtitle"])
            && ch[3] == Leaf("itunes:author", c["author"])
            && ch[4] == Leaf("description", c["description"])
            && ch[5] == Empty("itunes:image", [Attr("href", c["link"] + c["image"])])
            && ch[6] == Leaf("language", c["language"])
            && ch[7] == Leaf("link", c["link"])
            && ch[8] == Empty("itunes:category", [Attr("text", c["category"])])
  {
  }

  /** There is one `item` per episode, after the metadata, and nothing else:
      every child past the ninth is an `item`. */
  lemma ItemsFollowMetadata(d: Document)
    requires BuildFeed(d).Success?
    ensures var ch := Channel(BuildFeed(d).value).children;
            && |ch| == |MetadataTags| + |d.item.value|
            && forall i :: |MetadataTags| <= i < |ch| ==> ch[i].tag == "item"
  {
  }

  /** The `item` at position `e` comes from episode `e`: its texts are that
      episode's fields unchanged, its author is the channel author, and its
      enclosure points at the base link followed by the episode's file. */
  lemma ItemOfEpisode(d: Document, e: int)
    requires BuildFeed(d).Success?
    requires 0 <= e < |d.item.value|
    ensures var ch := Channel(BuildFeed(d).value).children;
            var c := d.channel;
            var ep := d.item.value[e];
            && |MetadataTags| + e < |ch|
            && var item := ch[|MetadataTags| + e];
               && item.tag == "item" && item.attrs == [] && item.text == None
               && Tags(item.children) == ItemTags
               && item.children[0] == Leaf("title", ep["title"])
               && item.children[1] == Leaf("itunes:author", c["author"])
               && item.children[2] == Leaf("description", ep["description"])
               && item.children[3] == Leaf("itunes:duration", ep["duration"])
               && item.children[4] == Leaf("pubDate", ep["published"])
               && item.children[5] == Empty("enclosure", [
                    Attr("url", c["link"] + ep["file"]),
                    Attr("type", "audio/mpeg"),
                    Attr("length", ep["length"])])
  {
  }

  /** An empty episode list is not an error: the channel then holds the
      metadata and no `item`. */
  lemma EmptyEpisodeList(d: Document)
    requires HasKeys(d.channel, ChannelKeys) && d.item == Some([])
    ensures BuildFeed(d).Success?
    ensures |Channel(BuildFeed(d).value).children| == |MetadataTags|
    ensures forall i :: 0 <= i < |Channel(BuildFeed(d).value).children| ==> Channel(BuildFeed(d).value).children[i].tag != "item"
  {
  }

  /** With base link `http://x.test/` and image `art.png` the cover art URL
      is `http://x.test/art.png`. */
  lemma ImageHrefExample(c: Fields)
    requires HasKeys(c, ChannelKeys)
    requires "link" in c && c["link"] == "http://x.test/"
    requires "image" in c && c["image"] == "art.png"
    ensures BuildFeed(Document(c, Some([]))).Success?
    ensures Channel(BuildFeed(Document(c, Some([]))).value).children[5].attrs == [Attr("href", "http://x.test/art.png")]
  {
    ChannelMetadata(Document(c, Some([])));
    assert c["link"] + c["image"] == "http://x.test/art.png";
  }
}
