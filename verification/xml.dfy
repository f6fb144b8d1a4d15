/** The element tree the feed builder produces: the part of an ElementTree
    element the builder sets (tag, attributes, text, children). */
module Xml {
  import opened Wrappers

  /** One attribute; an element keeps its attributes in insertion order. */
  datatype Attr = Attr(name: string, value: string)

  /** An element; `text` is `None` when the builder never assigns it. */
  datatype Element = Element(tag: string, attrs: seq<Attr>, text: Option<string>, children: seq<Element>)

  /** A childless element carrying only text, as `SubElement(p, tag).text = s` builds it. */
  function Leaf(tag: string, text: string): Element {
    Element(tag, [], Some(text), [])
  }

  /** A childless, textless element carrying only attributes. */
  function Empty(tag: string, attrs: seq<Attr>): Element {
    Element(tag, attrs, None, [])
  }

  /** The value of the first attribute called `name`, if there is one. */
  function AttrValue(attrs: seq<Attr>, name: string): (r: Option<string>)
    ensures r.None? <==> forall i :: 0 <= i < |attrs| ==> attrs[i].name != name
    ensures r.Some? ==> exists i :: FirstNamed(attrs, name, i) && attrs[i].value == r.value
  {
    if |attrs| == 0 then None
    else if attrs[0].name == name then
      assert FirstNamed(attrs, name, 0);
      Some(attrs[0].value)
    else
      var r := AttrValue(attrs[1..], name);
      assert r.Some? ==> exists i :: FirstNamed(attrs, name, i) && attrs[i].value == r.value by {
        if r.Some? {
          var j :| FirstNamed(attrs[1..], name, j) && attrs[1..][j].value == r.value;
          assert FirstNamed(attrs, name, j + 1);
        }
      }
      r
  }

  /** Attribute `i` is the first one of `attrs` called `name`. */
  predicate FirstNamed(attrs: seq<Attr>, name: string, i: int) {
    0 <= i < |attrs| && attrs[i].name == name && forall j :: 0 <= j < i ==> attrs[j].name != name
  }

  /** The first attribute of a name gives that name's value. */
  lemma AttrValueFirst(attrs: seq<Attr>, name: string, i: int)
    requires FirstNamed(attrs, name, i)
    ensures AttrValue(attrs, name) == Some(attrs[i].value)
  {
  }

  /** The tags of a sequence of elements, in order. */
  function Tags(es: seq<Element>): seq<string>
  {
    seq(|es|, i requires 0 <= i < |es| => es[i].tag)
  }
}
