/**
 * The element tree that the builders produce.  An element has a tag, an
 * attribute dictionary that remembers insertion order, and its children in
 * order.  `Element` is the mutable node the builders change step by step with
 * `Set` and `Append`; `Fragment` is the value such a node stands for.
 */
module Markup {
  import opened Wrappers

  /** An insertion-ordered dictionary of attributes: the keys in order, and their values. */
  datatype Attrs = Attrs(order: seq<string>, values: map<string, string>)

  /** One `key="value"` pair, as a reader of the element sees it. */
  datatype Attr = Attr(key: string, value: string)

  datatype Fragment = Fragment(tag: string, attrs: Attrs, children: seq<Fragment>)

  const NoAttrs := Attrs([], map[])

  /** Every key is listed once, and exactly the listed keys have values. */
  ghost predicate WellFormed(a: Attrs)
  {
    && (forall i, j :: 0 <= i < j < |a.order| ==> a.order[i] != a.order[j])
    && (forall k :: k in a.values <==> k in a.order)
  }

  /** The value stored under `key`, if any. */
  function Get(a: Attrs, key: string): Option<string>
  {
    if key in a.values then Some(a.values[key]) else None
  }

  /** `set(key, value)`: replaces the value of a present key, otherwise appends the pair. */
  function SetAttr(a: Attrs, key: string, value: string): Attrs
  {
    if key in a.values then Attrs(a.order, a.values[key := value])
    else Attrs(a.order + [key], a.values[key := value])
  }

  /** The attributes as pairs, in insertion order. */
  function Items(a: Attrs): (r: seq<Attr>)
    requires forall k :: k in a.order ==> k in a.values
    ensures |r| == |a.order|
    ensures forall i :: 0 <= i < |r| ==> r[i] == Attr(a.order[i], a.values[a.order[i]])
  {
    seq(|a.order|, i requires 0 <= i < |a.order| => Attr(a.order[i], a.values[a.order[i]]))
  }

  /**
   * After `set(key, value)` the key reads `value`, every other key reads what it
   * read before, and the key order is the old one, with `key` appended when it is new.
   */
  lemma SetAttrEffect(a: Attrs, key: string, value: string)
    requires WellFormed(a)
    ensures WellFormed(SetAttr(a, key, value))
    ensures Get(SetAttr(a, key, value), key) == Some(value)
    ensures forall k :: k != key ==> Get(SetAttr(a, key, value), k) == Get(a, k)
    ensures SetAttr(a, key, value).order == if key in a.order then a.order else a.order + [key]
  {
  }

  /** Setting a new or present key and then a different, present key gives the same attributes in either order. */
  lemma SetAttrCommute(a: Attrs, j: string, x: string, k: string, y: string)
    requires j != k && k in a.values
    ensures SetAttr(SetAttr(a, j, x), k, y) == SetAttr(SetAttr(a, k, y), j, x)
  {
    assert SetAttr(SetAttr(a, j, x), k, y).values == SetAttr(SetAttr(a, k, y), j, x).values;
  }

  /** A mutable element node. Children are held as the values appended. */
  class Element {
    var tag: string
    var attrs: Attrs
    var children: seq<Fragment>

    /** The tree this node currently stands for. */
    function Value(): Fragment
      reads this
    {
      Fragment(tag, attrs, children)
    }

    /** `etree.Element(tag)`: no attributes and no children. */
    constructor (tag: string)
      ensures Value() == Fragment(tag, NoAttrs, [])
    {
      this.tag := tag;
      attrs := NoAttrs;
      children := [];
    }

    /** `set(key, value)`; tag and children stay as they were. */
    method Set(key: string, value: string)
      modifies this
      ensures attrs == SetAttr(old(attrs), key, value)
      ensures tag == old(tag) && children == old(children)
    {
      attrs := SetAttr(attrs, key, value);
    }

    /** `append(child)`: adds the child's current value as the last child. */
    method Append(child: Element)
      modifies this
      ensures children == old(children) + [old(child.Value())]
      ensures tag == old(tag) && attrs == old(attrs)
    {
      children := children + [child.Value()];
    }
  }
}
