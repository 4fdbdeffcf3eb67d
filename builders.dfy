/**
 * The two markup builders, `iframe_object` and `flash_object`.  The functions
 * give the tree each builder returns; the methods build it the way the source
 * does, through a mutable `Element`, and are proved to return that tree.
 * Widths and heights arrive as strings, so `str(width)` is the value itself.
 */
module Builders {
  import opened Markup

  /** The attribute dictionary of `iframe_object`: seven keys, in the order they are set. */
  function IframeAttrs(url: string, width: string, height: string): Attrs
  {
    Attrs(["width", "height", "src", "frameborder", "webkitallowfullscreen", "mozallowfullscreen",
           "allowfullscreen"],
          map["width" := width, "height" := height, "src" := url, "frameborder" := "0",
              "webkitallowfullscreen" := "true", "mozallowfullscreen" := "true",
              "allowfullscreen" := "true"])
  }

  /** What `iframe_object(url, width, height)` returns. */
  function Iframe(url: string, width: string, height: string): Fragment
  {
    Fragment("iframe", IframeAttrs(url, width, height), [])
  }

  /** A `param` element whose `name` and then `value` are set. */
  function Param(name: string, value: string): Fragment
  {
    Fragment("param", Attrs(["name", "value"], map["name" := name, "value" := value]), [])
  }

  /** What `flash_object(url, width, height)` returns. */
  function Flash(url: string, width: string, height: string): Fragment
  {
    Fragment("object", Attrs(["width", "height"], map["width" := width, "height" := height]),
             [Param("movie", url), Param("allowfullscreen", "true")])
  }

  /**
   * An iframe is an `iframe` element with exactly these seven attributes, in this
   * order, each key once, and no children.
   */
  lemma IframeShape(url: string, width: string, height: string)
    ensures Iframe(url, width, height).tag == "iframe"
    ensures Items(Iframe(url, width, height).attrs) ==
      [Attr("width", width), Attr("height", height), Attr("src", url), Attr("frameborder", "0"),
       Attr("webkitallowfullscreen", "true"), Attr("mozallowfullscreen", "true"),
       Attr("allowfullscreen", "true")]
    ensures Iframe(url, width, height).children == []
  {
  }

  /** No key of an iframe is listed twice, and every listed key has its value. */
  lemma IframeWellFormed(url: string, width: string, height: string)
    ensures WellFormed(Iframe(url, width, height).attrs)
  {
  }

  /**
   * A flash object is an `object` element with only `width` and `height`, and exactly
   * two children, in order: the `movie` param holding the url, then the
   * `allowfullscreen` param; neither param has children.
   */
  lemma FlashShape(url: string, width: string, height: string)
    ensures Flash(url, width, height).tag == "object"
    ensures Items(Flash(url, width, height).attrs) == [Attr("width", width), Attr("height", height)]
    ensures |Flash(url, width, height).children| == 2
    ensures Flash(url, width, height).children[0].tag == "param"
    ensures Items(Flash(url, width, height).children[0].attrs) == [Attr("name", "movie"), Attr("value", url)]
    ensures Flash(url, width, height).children[1].tag == "param"
    ensures Items(Flash(url, width, height).children[1].attrs) == [Attr("name", "allowfullscreen"), Attr("value", "true")]
    ensures Flash(url, width, height).children[0].children == [] == Flash(url, width, height).children[1].children
  {
  }

  /** Setting `width` and `height` on an iframe gives the iframe of the new dimensions. */
  lemma IframeResize(url: string, w1: string, h1: string, w2: string, h2: string)
    ensures SetAttr(SetAttr(IframeAttrs(url, w1, h1), "width", w2), "height", h2) == IframeAttrs(url, w2, h2)
  {
    assert SetAttr(SetAttr(IframeAttrs(url, w1, h1), "width", w2), "height", h2).values
        == IframeAttrs(url, w2, h2).values;
  }

  /** Setting `width` and `height` on a flash object gives the object of the new dimensions, params unchanged. */
  lemma FlashResize(url: string, w1: string, h1: string, w2: string, h2: string)
    ensures SetAttr(SetAttr(Flash(url, w1, h1).attrs, "width", w2), "height", h2) == Flash(url, w2, h2).attrs
    ensures Flash(url, w1, h1).children == Flash(url, w2, h2).children
  {
    assert SetAttr(SetAttr(Flash(url, w1, h1).attrs, "width", w2), "height", h2).values
        == Flash(url, w2, h2).attrs.values;
  }

  /** `iframe_object`: a new `iframe` element and seven `set` calls. */
  method IframeObject(url: string, width: string, height: string) returns (obj: Element)
    ensures fresh(obj)
    ensures obj.Value() == Iframe(url, width, height)
  {
    obj := new Element("iframe");
    obj.Set("width", width);
    obj.Set("height", height);
    obj.Set("src", url);
    obj.Set("frameborder", "0");
    obj.Set("webkitallowfullscreen", "true");
    obj.Set("mozallowfullscreen", "true");
    obj.Set("allowfullscreen", "true");
  }

  /** A new `param` element, then `set('name', ...)` and `set('value', ...)`. */
  method NewParam(name: string, value: string) returns (param: Element)
    ensures fresh(param)
    ensures param.Value() == Param(name, value)
  {
    param := new Element("param");
    param.Set("name", name);
    param.Set("value", value);
  }

  /** `flash_object`: `width` and `height` set, then the two params appended in order. */
  method FlashObject(url: string, width: string, height: string) returns (obj: Element)
    ensures fresh(obj)
    ensures obj.Value() == Flash(url, width, height)
  {
    obj := new Element("object");
    obj.Set("width", width);
    obj.Set("height", height);
    var param := NewParam("movie", url);
    obj.Append(param);
    param := NewParam("allowfullscreen", "true");
    obj.Append(param);
  }
}
