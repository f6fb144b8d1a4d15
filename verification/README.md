# Podcast feed builder, modelled in Dafny

The repository is one script, `feed.py`. It loads a podcast description from
`feed.yaml`, maps it field by field onto an RSS 2.0 / iTunes element tree, and
writes that tree to `podcast.xml`. This project models the mapping step: the
loaded description goes in, and either an element tree or the first missing-key
error comes out.

- `wrappers.dfy` (`Wrappers`): the `Option` and `Result` types used for the
  error paths.
- `xml.dfy` (`Xml`): the element tree. Each element has a tag, attributes in
  insertion order, optional text and children.
- `podcast.dfy` (`Podcast`): the loaded document and the key lookups. The
  document holds the string-valued top-level keys, plus the `item` episode
  list, which is `None` when the key is absent. A missing key gives
  `KeyError(key)`. `LookupAll` performs a run of `m[key]` reads in order and
  stops at the first missing key.
- `feed.dfy` (`Feed`): the builder, `BuildItem`, `BuildItems` and `BuildFeed`,
  and the constants it writes (root attributes, enclosure type, tag orders).
- `feed_errors.dfy` (`FeedErrors`): the trace of lookups the builder performs,
  and the theorem that a build reports the first missing key in that order.
- `feed_shape.dfy` (`FeedShape`): the layout and contents of a built tree.
- `feed_readback.dfy` (`FeedReadBack`): the inverse of the builder. It reads a
  tree back into a document and proves the round trip. From the round trip it
  proves that the builder loses nothing it reads and ignores everything else.

The channel's keys are read in this order: `link`, `title`, `format`, `subtitle`,
`author`, `description`, `image`, `language`, `category`, then `item`. After
that, each episode's keys are read in the order `title`, `description`,
`duration`, `published`, `file`, `length`. The builder stops at the first key
that is missing: the partial tree is discarded and nothing reaches the write
step (feed.py:90).

A missing key raises `KeyError` at the builder's `yaml_data[...]` and
`item[...]` reads (feed.py:21-81); the YAML load at feed.py:7 checks no keys.

## Model

| member | source | states |
|---|---|---|
| Podcast.LookupAll | feed.py:21-51 | A run of key reads succeeds exactly when every key is present, and then yields each key's value in order. Otherwise it fails with `KeyError` of the first missing key. |
| Feed.BuildItem | feed.py:56-82 | An episode's item is built exactly when all six episode keys are present. Otherwise it fails with the first missing episode key, in read order. |
| Feed.BuildItems | feed.py:54-82 | Builds one item per episode, in episode order, with item i built from episode i. It succeeds exactly when every episode has every key. Otherwise it fails with the error of the first episode that lacks a key. |
| Feed.BuildFeed | feed.py:11-82 | Succeeds exactly when every required channel key, the episode list and every episode key are present. The result is an `rss` root with the constant attributes and one `channel` child. The channel has 9 + N children for N episodes. |
| FeedErrors.LookupAllFailsAtFirstMiss | feed.py:21-51 | A run of reads fails exactly when some lookup misses. It fails with the key of the first lookup that missed. |
| FeedErrors.BuildItemsFailsAtFirstMiss | feed.py:54-81 | The episode loop fails exactly when some episode key is missing. It reports the first missing key, going episode by episode and key by key within each episode. |
| FeedErrors.BuildFeedFailsAtFirstMissingKey | feed.py:21-81 | The build fails exactly when some lookup in the full read order misses. The error names the first key that is missing. |
| FeedShape.RootElement | feed.py:11-18 | The root is `rss`. Its attributes are exactly `version="2.0"`, the iTunes namespace and the content namespace, in that order. It has no text and a single bare `channel` child. |
| FeedShape.ChannelMetadata | feed.py:26-51 | The first nine channel children are title, format, subtitle, itunes:author, description, itunes:image, language, link and itunes:category, in that order. Each carries its channel value verbatim. `itunes:image@href` is exactly `link + image`. The `link` text is the base link. |
| FeedShape.ItemsFollowMetadata | feed.py:53-56 | The channel holds exactly 9 + N children for N episodes. Every child after the metadata is an `item`. |
| FeedShape.ItemOfEpisode | feed.py:58-82 | Item i comes from episode i. Its title, description, duration and pubDate texts are that episode's fields, unchanged. Its `itunes:author` is the channel author. Its enclosure has `url = link + file`, `type = audio/mpeg` and `length` set to the episode's length, verbatim. |
| FeedShape.EmptyEpisodeList | feed.py:54-56 | With every channel key present and an empty episode list, the build succeeds. The channel then holds the nine metadata children and no `item`. |
| FeedShape.ImageHrefExample | feed.py:42 | With link `http://x.test/` and image `art.png`, the cover art URL is `http://x.test/art.png`. |
| FeedReadBack.ReadBuiltItem | feed.py:56-82 | Reading a built item back gives the episode values read for it. The file path is recovered by stripping the base link from the enclosure URL. |
| FeedReadBack.ReadBuiltItems | feed.py:54-82 | Reading the built items back gives the required fields of every episode, in order. |
| FeedReadBack.ReadMetadata | feed.py:26-51 | Reading the nine metadata elements back gives the channel values they were built from. The image path is recovered by stripping the link from the href. |
| FeedReadBack.ReadBuiltChannel | feed.py:21-51 | Reading a built channel's metadata back gives the values read for the channel keys. |
| FeedReadBack.ReadBuiltFeed | feed.py:11-82 | Round trip: reading a built feed back gives exactly the required part of the input document. |
| FeedReadBack.BuildFeedInjective | feed.py:11-82 | Two documents that build the same feed agree on every required channel and episode key. |
| FeedReadBack.BuildFeedReadsOnlyRequiredKeys | feed.py:21-81 | Keys the builder does not read have no effect. Building the required part of a document gives the same result as building the whole document, whether that result is a tree or an error. |
| FeedReadBack.BuildItemsRequired | feed.py:54-81 | Extra keys in episodes have no effect on the items built or on the error reported. |

## Left out

- YAML parsing (`feed.py:5-7`) belongs to a foreign library. Its result is the `Document` parameter.
- Input shapes the script does not expect are not modelled. These are values that are not strings, a top level that is not a mapping, and an `item` value that is not a list of mappings. Every field is treated as a string.
- XML serialisation, character escaping and the UTF-8 declaration (`feed.py:84-90`) are library behaviour and are left out. Writing `podcast.xml` is file I/O and is left out too. The model stops at the tree that would be handed to the write step.
- Line 62 reads the channel `author` again for each item. By then that key is known to be present, so the lookup trace leaves this read out.
- ElementTree attributes form a dictionary. The builder never repeats an attribute name, so attributes are modelled as a sequence in insertion order. Element `tail` text is never set and is not modelled.
