/** Reading a built feed tree back into a podcast document. The tree keeps
    every value the builder read, so reading it back recovers exactly the
    required part of the input. */
module FeedReadBack {
  import opened Wrappers
  import opened Xml
  import opened Podcast
  import opened Feed

  /** The rest of `s` after `prefix`, when `s` starts with `prefix`. */
  function StripPrefix(prefix: string, s: string): (r: Option<string>)
    ensures r.Some? <==> prefix <= s
    ensures r.Some? ==> prefix + r.value == s
  {
    if prefix <= s then Some(s[|prefix|..]) else None
  }

  /** The text of `e`, when `e` has tag `tag`. */
  function TextOf(e: Element, tag: string): Option<string> {
    if e.tag == tag then e.text else None
  }

  /** The attribute `name` of `e`, when `e` has tag `tag`. */
  function AttrOf(e: Element, tag: string, name: string): Option<string> {
    if e.tag == tag then AttrValue(e.attrs, name) else None
  }

  /** The episode values an `item` element holds, in the order of
      `EpisodeKeys`; the file path is the enclosure URL with the base link
      removed. */
  function ReadItem(link: string, item: Element): (r: Option<seq<string>>)
    ensures r.Some? ==> |r.value| == |EpisodeKeys|
  {
    if item.tag != "item" || |item.children| != |ItemTags| then None
    else
      var title :- TextOf(item.children[0], "title");
      var description :- TextOf(item.children[2], "description");
      var duration :- TextOf(item.children[3], "itunes:duration");
      var published :- TextOf(item.children[4], "pubDate");
      var url :- AttrOf(item.children[5], "enclosure", "url");
      var file :- StripPrefix(link, url);
      var length :- AttrOf(item.children[5], "enclosure", "length");
      Some([title, description, duration, published, file, length])
  }

  /** The episodes of a sequence of `item` elements, in order. */
  function ReadItems(link: string, items: seq<Element>): Option<seq<Fields>> {
    if |items| == 0 then Some([])
    else
      var first :- ReadItem(link, items[0]);
      var rest :- ReadItems(link, items[1..]);
      Some([Zip(EpisodeKeys, first)] + rest)
  }

  /** The channel values the nine metadata elements hold, in the order of
      `ChannelKeys`; the image path is the cover art URL with the base link
      removed. */
  function ReadChannel(ch: seq<Element>): (r: Option<seq<string>>)
    ensures r.Some? ==> |r.value| == |ChannelKeys|
  {
    if |ch| != |MetadataTags| then None
    else
      var title :- TextOf(ch[0], "title");
      var format :- TextOf(ch[1], "format");
      var subtitle :- TextOf(ch[2], "subtitle");
      var author :- TextOf(ch[3], "itunes:author");
      var description :- TextOf(ch[4], "description");
      var href :- AttrOf(ch[5], "itunes:image", "href");
      var language :- TextOf(ch[6], "language");
      var link :- TextOf(ch[7], "link");
      var category :- AttrOf(ch[8], "itunes:category", "text");
      var image :- StripPrefix(link, href);
      Some([link, title, format, subtitle, author, description, image, language, category])
  }

  /** The podcast document an `rss` tree describes. */
  function ReadFeed(feed: Element): Option<Document> {
    if feed.tag != "rss" || |feed.children| != 1 then None
    else
      var channel := feed.children[0];
      var ch := channel.children;
      if channel.tag != "channel" || |ch| < |MetadataTags| then None
      else
        var values :- ReadChannel(ch[..|MetadataTags|]);
        var episodes :- ReadItems(values[0], ch[|MetadataTags|..]);
        Some(Document(Zip(ChannelKeys, values), Some(episodes)))
  }

  /** The required entries of every episode, in order. */
  function RequiredEpisodes(episodes: seq<Fields>): (r: seq<Fields>)
    ensures |r| == |episodes|
    ensures forall e :: 0 <= e < |episodes| ==> r[e] == Project(EpisodeKeys, episodes[e])
  {
    if |episodes| == 0 then []
    else [Project(EpisodeKeys, episodes[0])] + RequiredEpisodes(episodes[1..])
  }

  /** The part of a document the builder reads: the channel keys, and the
      episode keys of every episode. */
  function Required(d: Document): Document {
    Document(
      Project(ChannelKeys, d.channel),
      match d.item
      case None => None
      case Some(episodes) => Some(RequiredEpisodes(episodes)))
  }

  /** The base link followed by a path strips back to that path. */
  lemma StripConcat(link: string, path: string)
    ensures StripPrefix(link, link + path) == Some(path)
  {
  }

  /** Reading back the `item` built for an episode gives the values looked
      up for it. */
  lemma ReadBuiltItem(link: string, author: string, episode: Fields)
    requires HasKeys(episode, EpisodeKeys)
    ensures ReadItem(link, BuildItem(link, author, episode).value) == Some(LookupAll(EpisodeKeys, episode).value)
  {
    var v := LookupAll(EpisodeKeys, episode).value;
    var item := BuildItem(link, author, episode).value;
    var attrs := item.children[5].attrs;
    assert attrs == [Attr("url", link + v[4]), Attr("type", EnclosureType), Attr("length", v[5])];
    AttrValueFirst(attrs, "url", 0);
    AttrValueFirst(attrs, "length", 2);
    StripConcat(link, v[4]);
    assert v == [v[0], v[1], v[2], v[3], v[4], v[5]];
  }

  /** Reading back the items built for an episode list gives the required
      fields of every episode, in order. */
  lemma {:induction false} ReadBuiltItems(link: string, author: string, episodes: seq<Fields>)
    requires BuildItems(link, author, episodes).Success?
    ensures ReadItems(link, BuildItems(link, author, episodes).value) == Some(RequiredEpisodes(episodes))
  {
    if |episodes| > 0 {
      var items := BuildItems(link, author, episodes).value;
      var first := BuildItem(link, author, episodes[0]);
      var rest := BuildItems(link, author, episodes[1..]);
      assert first.Success? && rest.Success?;
      assert items == [first.value] + rest.value;
      assert items[0] == first.value && items[1..] == rest.value;
      ReadBuiltItems(link, author, episodes[1..]);
      ReadBuiltItem(link, author, episodes[0]);
      ZipLookups(EpisodeKeys, episodes[0]);
      assert ReadItem(link, items[0]) == Some(LookupAll(EpisodeKeys, episodes[0]).value);
      assert ReadItems(link, items[1..]) == Some(RequiredEpisodes(episodes[1..]));
      assert RequiredEpisodes(episodes) == [Project(EpisodeKeys, episodes[0])] + RequiredEpisodes(episodes[1..]);
    }
  }

  /** Reading back the metadata elements gives the channel values they
      were built from. */
  lemma ReadMetadata(link: string, title: string, format: string, subtitle: string, author: string,
                     description: string, image: string, language: string, category: string)
    ensures ReadChannel(Metadata(link, title, format, subtitle, author, description, image, language, category))
            == Some([link, title, format, subtitle, author, description, image, language, category])
  {
  }

  /** Reading back the nine metadata elements of a built feed gives the
      values looked up for the channel keys. */
  lemma ReadBuiltChannel(d: Document)
    requires BuildFeed(d).Success?
    ensures |Channel(BuildFeed(d).value).children| >= |MetadataTags|
    ensures ReadChannel(Channel(BuildFeed(d).value).children[..|MetadataTags|]) == Some(LookupAll(ChannelKeys, d.channel).value)
  {
    var v := LookupAll(ChannelKeys, d.channel).value;
    var ch := Channel(BuildFeed(d).value).children[..|MetadataTags|];
    assert ch == Metadata(v[0], v[1], v[2], v[3], v[4], v[5], v[6], v[7], v[8]);
    ReadMetadata(v[0], v[1], v[2], v[3], v[4], v[5], v[6], v[7], v[8]);
    assert v == [v[0], v[1], v[2], v[3], v[4], v[5], v[6], v[7], v[8]];
  }

  /** Reading back a built feed gives the required part of its input: the
      tree loses nothing the builder read. */
  lemma ReadBuiltFeed(d: Document)
    requires BuildFeed(d).Success?
    ensures ReadFeed(BuildFeed(d).value) == Some(Required(d))
  {
    var v := LookupAll(ChannelKeys, d.channel).value;
    var items := BuildItems(v[0], v[4], d.item.value);
    ReadBuiltChannel(d);
    ReadBuiltItems(v[0], v[4], d.item.value);
    ZipLookups(ChannelKeys, d.channel);
    var ch := Channel(BuildFeed(d).value).children;
    assert ch[|MetadataTags|..] == items.value;
  }

  /** Two inputs that build the same feed agree on every required key. */
  lemma BuildFeedInjective(d1: Document, d2: Document)
    requires BuildFeed(d1).Success? && BuildFeed(d1) == BuildFeed(d2)
    ensures Required(d1) == Required(d2)
  {
    ReadBuiltFeed(d1);
    ReadBuiltFeed(d2);
  }

  /** Keys other than the required ones play no part: the build of the
      required part of a document, success or failure, is the build of the
      whole document. */
  lemma BuildFeedReadsOnlyRequiredKeys(d: Document)
    ensures BuildFeed(Required(d)) == BuildFeed(d)
  {
    LookupAllAgree(ChannelKeys, d.channel, Project(ChannelKeys, d.channel));
    var v := LookupAll(ChannelKeys, d.channel);
    if v.Success? && d.item.Some? {
      BuildItemsRequired(v.value[0], v.value[4], d.item.value);
    }
  }

  /** The items built from the required entries of an episode list are the
      items built from the list itself. */
  lemma {:induction false} BuildItemsRequired(link: string, author: string, episodes: seq<Fields>)
    ensures BuildItems(link, author, RequiredEpisodes(episodes)) == BuildItems(link, author, episodes)
  {
    if |episodes| > 0 {
      var req := RequiredEpisodes(episodes);
      assert req[1..] == RequiredEpisodes(episodes[1..]);
      LookupAllAgree(EpisodeKeys, episodes[0], req[0]);
      assert BuildItem(link, author, req[0]) == BuildItem(link, author, episodes[0]);
      BuildItemsRequired(link, author, episodes[1..]);
    }
  }
}
