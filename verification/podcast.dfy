/** The loaded podcast description (the parsed `feed.yaml`) and the
    key lookups the builder performs on it. */
module Podcast {
  import opened Wrappers

  /** A mapping from keys to string values, as the YAML loader returns it. */
  type Fields = map<string, string>

  /** The top-level YAML mapping: its string-valued keys, and the value of
      the `item` key (the ordered episode mappings), `None` when absent. */
  datatype Document = Document(channel: Fields, item: Option<seq<Fields>>)

  /** A failed lookup of a required key (Python's `KeyError`). */
  datatype Error = KeyError(key: string)

  /** The channel keys, in the order the builder reads them. */
  const ChannelKeys: seq<string> :=
    ["link", "title", "format", "subtitle", "author", "description", "image", "language", "category"]

  /** The key holding the episode list, read after every channel key. */
  const ItemKey: string := "item"

  /** The episode keys, in the order the builder reads them for each episode. */
  const EpisodeKeys: seq<string> :=
    ["title", "description", "duration", "published", "file", "length"]

  /** One lookup performed by the builder, and whether the key was there. */
  datatype Lookup = Lookup(key: string, found: bool)

  /** The lookups of `keys` in `m`, in order. */
  function KeyTrace(keys: seq<string>, m: Fields): (t: seq<Lookup>)
    ensures |t| == |keys|
    ensures forall i :: 0 <= i < |keys| ==> t[i] == Lookup(keys[i], keys[i] in m)
  {
    seq(|keys|, i requires 0 <= i < |keys| => Lookup(keys[i], keys[i] in m))
  }

  /** Every lookup of `t` found its key. */
  predicate AllFound(t: seq<Lookup>) {
    forall i :: 0 <= i < |t| ==> t[i].found
  }

  /** Lookup `i` is the first one of `t` that failed. */
  predicate FirstMiss(t: seq<Lookup>, i: int) {
    0 <= i < |t| && !t[i].found && forall j :: 0 <= j < i ==> t[j].found
  }

  /** Every key of `keys` is present in `m`. */
  predicate HasKeys(m: Fields, keys: seq<string>) {
    forall i :: 0 <= i < |keys| ==> keys[i] in m
  }

  /** Looks `keys` up in `m` one after the other, stopping at the first
      missing key, as a run of `m[key]` expressions does. */
  function LookupAll(keys: seq<string>, m: Fields): (r: Result<seq<string>, Error>)
    ensures r.Success? <==> HasKeys(m, keys)
    ensures r.Success? ==> |r.value| == |keys| && forall i :: 0 <= i < |keys| ==> r.value[i] == m[keys[i]]
    ensures r.Failure? ==> exists i :: FirstMiss(KeyTrace(keys, m), i) && r.error == KeyError(keys[i])
  {
    if |keys| == 0 then Success([])
    else if keys[0] !in m then
      assert FirstMiss(KeyTrace(keys, m), 0);
      Failure(KeyError(keys[0]))
    else
      var rest :- LookupAll(keys[1..], m);
      Success([m[keys[0]]] + rest)
  }

  /** The entries of `m` under `keys`. */
  function Project(keys: seq<string>, m: Fields): Fields
  {
    map k | k in keys && k in m :: m[k]
  }

  /** The mapping that sends each key to the value at the same position. */
  function Zip(keys: seq<string>, values: seq<string>): (r: Fields)
    requires |keys| == |values|
    ensures forall k :: k in r <==> k in keys
  {
    if |keys| == 0 then map[] else Zip(keys[1..], values[1..])[keys[0] := values[0]]
  }

  /** Pairing keys with the values looked up for them gives back the
      entries of the mapping under those keys. */
  lemma {:induction false} ZipLookups(keys: seq<string>, m: Fields)
    requires LookupAll(keys, m).Success?
    ensures Zip(keys, LookupAll(keys, m).value) == Project(keys, m)
  {
    if |keys| > 0 {
      var v := LookupAll(keys, m).value;
      var rest := LookupAll(keys[1..], m);
      assert v == [m[keys[0]]] + rest.value;
      assert v[1..] == rest.value;
      ZipLookups(keys[1..], m);
      var z := Zip(keys, v);
      var p := Project(keys, m);
      assert z.Keys == p.Keys by {
        forall k | k in keys ensures k == keys[0] || k in keys[1..] {
          var i :| 0 <= i < |keys| && keys[i] == k;
          if i > 0 {
            assert keys[1..][i - 1] == k;
          }
        }
      }
      forall k | k in z ensures z[k] == p[k] {
        if k != keys[0] {
          assert z[k] == Project(keys[1..], m)[k];
        }
      }
    }
  }

  /** Two mappings that agree on `keys` give the same lookups of `keys`. */
  lemma {:induction false} LookupAllAgree(keys: seq<string>, m: Fields, m': Fields)
    requires forall k :: k in keys ==> (k in m <==> k in m')
    requires forall k :: k in keys && k in m ==> m[k] == m'[k]
    ensures LookupAll(keys, m) == LookupAll(keys, m')
  {
    if |keys| > 0 {
      assert keys[0] in keys;
      forall k | k in keys[1..] ensures k in keys {
        var i :| 0 <= i < |keys[1..]| && keys[1..][i] == k;
        assert keys[i + 1] == k;
      }
      LookupAllAgree(keys[1..], m, m');
    }
  }

  /** A trace has at most one first miss. */
  lemma FirstMissUnique(t: seq<Lookup>, i: int, j: int)
    requires FirstMiss(t, i) && FirstMiss(t, j)
    ensures i == j
  {
  }

  /** The first miss of a concatenation lies in its first part, or the first
      part found everything and it lies in the second part. */
  lemma FirstMissConcat(a: seq<Lookup>, b: seq<Lookup>, i: int)
    requires FirstMiss(a + b, i)
    ensures (i < |a| && FirstMiss(a, i)) || (|a| <= i && AllFound(a) && FirstMiss(b, i - |a|))
  {
    forall j | 0 <= j < |a| && j < i ensures a[j].found {
      assert (a + b)[j] == a[j];
    }
    if i < |a| {
      assert (a + b)[i] == a[i];
    } else {
      forall j | 0 <= j < i - |a| ensures b[j].found {
        assert (a + b)[j + |a|] == b[j];
      }
      assert (a + b)[i] == b[i - |a|];
    }
  }

  /** A concatenation found everything exactly when both parts did. */
  lemma AllFoundConcat(a: seq<Lookup>, b: seq<Lookup>)
    ensures AllFound(a + b) <==> AllFound(a) && AllFound(b)
  {
    if AllFound(a + b) {
      forall j | 0 <= j < |a| ensures a[j].found {
        assert (a + b)[j] == a[j];
      }
      forall j | 0 <= j < |b| ensures b[j].found {
        assert (a + b)[j + |a|] == b[j];
      }
    }
    if AllFound(a) && AllFound(b) {
      forall j | 0 <= j < |a + b| ensures (a + b)[j].found {
        if j < |a| {
          assert (a + b)[j] == a[j];
        } else {
          assert (a + b)[j] == b[j - |a|];
        }
      }
    }
  }
}
