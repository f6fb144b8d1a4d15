/** Which key a failing build reports: the first required key that is
    missing, in the order the builder reads the keys. */
module FeedErrors {
  import opened Wrappers
  import opened Xml
  import opened Podcast
  import opened Feed

  /** The lookups of every episode's keys, episode after episode. */
  ghost function EpisodesTrace(episodes: seq<Fields>): seq<Lookup>
  {
    if |episodes| == 0 then [] else KeyTrace(EpisodeKeys, episodes[0]) + EpisodesTrace(episodes[1..])
  }

  /** Every lookup the builder performs on `d`, in order: the channel keys,
      then `item`, then (when the list is there) each episode's keys. */
  ghost function Trace(d: Document): seq<Lookup>
  {
    KeyTrace(ChannelKeys, d.channel) + [Lookup(ItemKey, d.item.Some?)]
      + (if d.item.Some? then EpisodesTrace(d.item.value) else [])
  }

  /** A lookup run fails exactly at its first miss. */
  lemma LookupAllFailsAtFirstMiss(keys: seq<string>, m: Fields)
    ensures LookupAll(keys, m).Success? <==> AllFound(KeyTrace(keys, m))
    ensures forall i :: FirstMiss(KeyTrace(keys, m), i) ==> LookupAll(keys, m) == Failure(KeyError(keys[i]))
  {
  }

  /** The items of an episode list fail exactly at the first missing
      episode key, counting episode after episode. */
  lemma {:induction false} BuildItemsFailsAtFirstMiss(link: string, author: string, episodes: seq<Fields>)
    ensures BuildItems(link, author, episodes).Success? <==> AllFound(EpisodesTrace(episodes))
    ensures forall i :: FirstMiss(EpisodesTrace(episodes), i) ==>
              BuildItems(link, author, episodes) == Failure(KeyError(EpisodesTrace(episodes)[i].key))
  {
    if |episodes| > 0 {
      var head := KeyTrace(EpisodeKeys, episodes[0]);
      var tail := EpisodesTrace(episodes[1..]);
      assert EpisodesTrace(episodes) == head + tail;
      BuildItemsFailsAtFirstMiss(link, author, episodes[1..]);
      LookupAllFailsAtFirstMiss(EpisodeKeys, episodes[0]);
      AllFoundConcat(head, tail);
      forall i | FirstMiss(head + tail, i)
        ensures BuildItems(link, author, episodes) == Failure(KeyError((head + tail)[i].key))
      {
        FirstMissConcat(head, tail, i);
        if i < |head| {
          assert (head + tail)[i] == head[i];
        } else {
          assert (head + tail)[i] == tail[i - |head|];
        }
      }
    }
  }

  /** A build succeeds exactly when every lookup finds its key, and a failing
      build reports the key of the first lookup that did not. */
  lemma BuildFeedFailsAtFirstMissingKey(d: Document)
    ensures BuildFeed(d).Success? <==> AllFound(Trace(d))
    ensures forall i :: FirstMiss(Trace(d), i) ==> BuildFeed(d) == Failure(KeyError(Trace(d)[i].key))
  {
    var channel := KeyTrace(ChannelKeys, d.channel);
    var rest := [Lookup(ItemKey, d.item.Some?)] + (if d.item.Some? then EpisodesTrace(d.item.value) else []);
    assert Trace(d) == channel + rest;
    LookupAllFailsAtFirstMiss(ChannelKeys, d.channel);
    AllFoundConcat(channel, rest);
    AllFoundConcat([Lookup(ItemKey, d.item.Some?)], rest[1..]);
    assert rest == [Lookup(ItemKey, d.item.Some?)] + rest[1..];
    var v := LookupAll(ChannelKeys, d.channel);
    if v.Success? && d.item.Some? {
      BuildItemsFailsAtFirstMiss(v.value[0], v.value[4], d.item.value);
      assert BuildFeed(d).Success? <==> BuildItems(v.value[0], v.value[4], d.item.value).Success?;
      assert rest[1..] == EpisodesTrace(d.item.value);
    } else if v.Success? {
      assert !rest[0].found;
    }
    forall i | FirstMiss(channel + rest, i)
      ensures BuildFeed(d) == Failure(KeyError((channel + rest)[i].key))
    {
      FirstMissConcat(channel, rest, i);
      if i < |channel| {
        assert (channel + rest)[i] == channel[i];
      } else {
        var k := i - |channel|;
        assert (channel + rest)[i] == rest[k];
        if k > 0 {
          FirstMissConcat([Lookup(ItemKey, d.item.Some?)], rest[1..], k);
          assert rest[k] == rest[1..][k - 1];
        }
      }
    }
  }
}
