/**
 * The nine `handleMatch` methods: each turns the groups of its pattern and the
 * extension's options into the element that replaces the URL.  `Embed` states
 * the result as a value; the methods build it through `Element`, as the
 * handlers do, and are proved to return what `Embed` states.
 */
module Handlers {
  import opened Wrappers
  import opened Markup
  import opened Builders
  import opened Scanner
  import opened Config

  // -------------------------------------------------------------- str.format

  /** A format string, parsed: literal text and automatically numbered `{}` slots. */
  datatype Piece = Text(s: string) | Slot

  /** `str.format` raises `IndexError` when a slot has no positional argument. */
  datatype BuildError = ReplacementIndexOutOfRange(index: nat)

  function SlotCount(t: seq<Piece>): nat
  {
    if t == [] then 0 else (if t[0].Slot? then 1 else 0) + SlotCount(t[1..])
  }

  /** `format` on the pieces of `t`, the next slot taking `args[next]`. */
  function FormatFrom(t: seq<Piece>, args: seq<string>, next: nat): (r: Result<string, BuildError>)
    requires next <= |args|
    ensures r.Success? <==> next + SlotCount(t) <= |args|
    ensures r.Failure? ==> r.error == ReplacementIndexOutOfRange(|args|)
    decreases |t|
  {
    if t == [] then Success("")
    else
      match t[0]
      case Text(s) =>
        (match FormatFrom(t[1..], args, next)
         case Success(rest) => Success(s + rest)
         case Failure(e) => Failure(e))
      case Slot =>
        if next == |args| then Failure(ReplacementIndexOutOfRange(next))
        else
          match FormatFrom(t[1..], args, next + 1)
          case Success(rest) => Success(args[next] + rest)
          case Failure(e) => Failure(e)
  }

  /** `template.format(*args)`: it fails exactly when there are more slots than arguments. */
  function Format(t: seq<Piece>, args: seq<string>): (r: Result<string, BuildError>)
    ensures r.Success? <==> SlotCount(t) <= |args|
    ensures r.Failure? ==> r.error == ReplacementIndexOutOfRange(|args|)
  {
    FormatFrom(t, args, 0)
  }

  /** A template with one slot between two literal texts. */
  function Around(prefix: string, suffix: string): seq<Piece>
  {
    [Text(prefix), Slot, Text(suffix)]
  }

  /** Formatting a one-slot template splices the argument between its two texts. */
  lemma FormatAround(prefix: string, suffix: string, arg: string)
    ensures Format(Around(prefix, suffix), [arg]) == Success(prefix + arg + suffix)
  {
    var t := Around(prefix, suffix);
    assert t[1..][1..][1..] == [];
    assert FormatFrom(t[1..][1..][1..], [arg], 1) == Success("");
    assert t[1..][1..] == [Text(suffix)];
    assert FormatFrom(t[1..][1..], [arg], 1) == Success(suffix + "");
    assert t[1..][0] == Slot;
    assert FormatFrom(t[1..], [arg], 0) == Success(arg + (suffix + ""));
    assert FormatFrom(t, [arg], 0) == Success(prefix + (arg + (suffix + "")));
    assert suffix + "" == suffix;
    assert prefix + (arg + suffix) == prefix + arg + suffix;
  }

  /** `template.format(arg)` for a one-slot template, which cannot fail. */
  function Fill(prefix: string, suffix: string, arg: string): (r: string)
    ensures r == prefix + arg + suffix
    ensures suffix == "" ==> r == prefix + arg
  {
    FormatAround(prefix, suffix, arg);
    assert prefix + arg + "" == prefix + arg;
    Format(Around(prefix, suffix), [arg]).value
  }

  // ------------------------------------------------------------ split('/')[-1]

  /** `s.split('/')[-1]`: the text after the last `/`, or all of `s` when it has none. */
  function LastSegment(s: string): (r: string)
    ensures |r| <= |s| && r == s[|s| - |r|..]
    ensures '/' !in r
    ensures |r| < |s| ==> s[|s| - |r| - 1] == '/'
    decreases |s|
  {
    if s == [] then []
    else if s[|s| - 1] == '/' then []
    else
      var init, c := s[..|s| - 1], s[|s| - 1];
      var r := LastSegment(init);
      assert init[|init| - |r|..] + [c] == s[|s| - |r| - 1..];
      assert |r| < |init| ==> s[|s| - |r| - 2] == init[|init| - |r| - 1];
      r + [c]
  }

  /** The last segment of `a + "/" + b`, when `b` has no `/`, is `b`. */
  lemma LastSegmentAfterSlash(a: string, b: string)
    requires '/' !in b
    ensures LastSegment(a + "/" + b) == b
  {
    var s := a + "/" + b;
    var r := LastSegment(s);
    assert s[|a|] == '/' && s[|a| + 1..] == b;
  }

  // ---------------------------------------------------------------- templates

  const DailymotionPrefix := "http://www.dailymotion.com/embed/video/"
  const GametrailersPrefix := "http://www.gametrailers.com/remote_wrap.php?mid="
  const MetacafePrefix := "http://www.metacafe.com/embed/"
  const VeohPrefix := "http://www.veoh.com/swf/webplayer/WebPlayer.swf?version=AFrontend.5.7.0.1509&permalinkId="
  const VeohSuffix := "&player=videodetailsembedded&videoAutoPlay=0&id=anonymous"
  const VimeoPrefix := "https://player.vimeo.com/video/"
  const YahooPlayer := "http://d.yimg.com/static.video.yahoo.com/yep/YV_YEP.swf?ver=2.2.40"
  const YahooScreenPrefix := "https://screen.yahoo.com/"
  const YahooScreenSuffix := ".html?format=embed"
  const YoutubePrefix := "http://www.youtube.com/v/"

  /** `"id={}&vid={}"`: two slots. */
  const FlashVars: seq<Piece> := [Text("id="), Slot, Text("&vid="), Slot]

  /**
   * The single positional argument Yahoo passes, the pair `(yahooid, yahoovid)`;
   * which text it formats to never matters, because the second slot fails.
   */
  function YahooPair(id: string, vid: string): string
  {
    "('" + id + "', '" + vid + "')"
  }

  /** The video URL each handler formats (Yahoo's is a fixed player URL). */
  function VideoUrl(svc: Service, groups: map<string, string>): string
    requires GroupNames(svc) <= groups.Keys
  {
    match svc
    case Dailymotion => Fill(DailymotionPrefix, "", groups["dailymotionid"])
    case Gametrailers => LastSegment(Fill(GametrailersPrefix, "", groups["gametrailersid"]))
    case Metacafe => Fill(MetacafePrefix, "/", groups["metacafeid"])
    case Veoh => Fill(VeohPrefix, VeohSuffix, groups["veohid"])
    case Vimeo => Fill(VimeoPrefix, "", groups["vimeoid"])
    case Yahoo => YahooPlayer
    case YahooScreen => Fill(YahooScreenPrefix, YahooScreenSuffix, groups["yahooscreenid"])
    case Youtube => Fill(YoutubePrefix, "", groups["youtubeargs"])
    case YoutubeShort => Fill(YoutubePrefix, "", groups["youtubeargs"])
  }

  /**
   * `split('/')[-1]` cuts the Gametrailers URL down to its last segment: for an id
   * without `/` the URL is the relative `remote_wrap.php?mid=<id>`.
   */
  lemma GametrailersUrlIsRelative(groups: map<string, string>)
    requires "gametrailersid" in groups && '/' !in groups["gametrailersid"]
    ensures VideoUrl(Gametrailers, groups) == "remote_wrap.php?mid=" + groups["gametrailersid"]
  {
    var id := groups["gametrailersid"];
    assert GametrailersPrefix + id + "" == "http://www.gametrailers.com" + "/" + ("remote_wrap.php?mid=" + id);
    LastSegmentAfterSlash("http://www.gametrailers.com", "remote_wrap.php?mid=" + id);
  }

  // -------------------------------------------------------------- dimensions

  /** The width option a recognizer reads: YahooScreen shares Yahoo's, YoutubeShort Youtube's. */
  function WidthKey(svc: Service): (k: string)
    ensures k in OptionNames
  {
    match svc
    case Dailymotion => "dailymotion_width"
    case Gametrailers => "gametrailers_width"
    case Metacafe => "metacafe_width"
    case Veoh => "veoh_width"
    case Vimeo => "vimeo_width"
    case Yahoo | YahooScreen => "yahoo_width"
    case Youtube | YoutubeShort => "youtube_width"
  }

  /** The height option a recognizer reads, paired with its width option. */
  function HeightKey(svc: Service): (k: string)
    ensures k in OptionNames && k != WidthKey(svc)
  {
    match svc
    case Dailymotion => "dailymotion_height"
    case Gametrailers => "gametrailers_height"
    case Metacafe => "metacafe_height"
    case Veoh => "veoh_height"
    case Vimeo => "vimeo_height"
    case Yahoo | YahooScreen => "yahoo_height"
    case Youtube | YoutubeShort => "youtube_height"
  }

  // ------------------------------------------------------------ the elements

  /** The `embed` element Veoh appends, its six attributes in the order they are set. */
  function VeohEmbed(url: string, width: string, height: string): Fragment
  {
    Fragment("embed",
      Attrs(["src", "type", "allowfullscreen", "width", "height", "name"],
            map["src" := url, "type" := "application/x-shockwave-flash", "allowfullscreen" := "true",
                "width" := width, "height" := height, "name" := "veohFlashPlayerEmbed"]),
      [])
  }

  /** What each handler returns for the given groups and dimensions. */
  function EmbedSized(svc: Service, groups: map<string, string>, width: string, height: string)
    : Result<Fragment, BuildError>
    requires GroupNames(svc) <= groups.Keys
  {
    var url := VideoUrl(svc, groups);
    match svc
    case Gametrailers => Success(Flash(url, width, height))
    case Veoh =>
      var obj := Flash(url, width, height);
      Success(Fragment(obj.tag, obj.attrs, obj.children + [VeohEmbed(url, width, height)]))
    case Yahoo =>
      (match Format(FlashVars, [YahooPair(groups["yahooid"], groups["yahoovid"])])
       case Failure(e) => Failure(e)
       case Success(vars) =>
         var obj := Flash(url, width, height);
         Success(Fragment(obj.tag, obj.attrs, obj.children + [Param("flashVars", vars)])))
    case YahooScreen =>
      var obj := Iframe(url, width, height);
      Success(Fragment(obj.tag, SetAttr(obj.attrs, "scrolling", "no"), obj.children))
    case _ => Success(Iframe(url, width, height))
  }

  /** `handleMatch`: the element for the groups, sized by the recognizer's own two options. */
  function Embed(svc: Service, groups: map<string, string>, cfg: Table): Result<Fragment, BuildError>
    requires GroupNames(svc) <= groups.Keys && Complete(cfg)
  {
    EmbedSized(svc, groups, cfg[WidthKey(svc)].value, cfg[HeightKey(svc)].value)
  }

  // ------------------------------------------------------------------ lemmas

  /** Yahoo's handler always raises: one argument for the two slots of `"id={}&vid={}"`. */
  lemma YahooAlwaysFails(groups: map<string, string>, width: string, height: string)
    requires GroupNames(Yahoo) <= groups.Keys
    ensures EmbedSized(Yahoo, groups, width, height) == Failure(ReplacementIndexOutOfRange(1))
  {
    assert SlotCount(FlashVars[1..][1..][1..]) == 1;
    assert SlotCount(FlashVars) == 2;
  }

  /**
   * Veoh keeps `flash_object`'s attributes and two params unchanged and appends
   * the `embed` for the same URL and dimensions.
   */
  lemma VeohShape(groups: map<string, string>, width: string, height: string)
    requires GroupNames(Veoh) <= groups.Keys
    ensures var url := VideoUrl(Veoh, groups);
      && EmbedSized(Veoh, groups, width, height).Success?
      && var f := EmbedSized(Veoh, groups, width, height).value;
      && f.tag == "object"
      && f.attrs == Flash(url, width, height).attrs
      && |f.children| == 3
      && f.children[..2] == Flash(url, width, height).children
      && f.children[2] == VeohEmbed(url, width, height)
  {
  }

  /**
   * The `embed` has no children and six attributes in order; its `src` is the
   * movie param's value and its `width` and `height` are the object's.
   */
  lemma VeohEmbedShape(url: string, width: string, height: string)
    ensures var e, obj := VeohEmbed(url, width, height), Flash(url, width, height);
      && e.tag == "embed" && e.children == []
      && Items(e.attrs) ==
         [Attr("src", url), Attr("type", "application/x-shockwave-flash"),
          Attr("allowfullscreen", "true"), Attr("width", width), Attr("height", height),
          Attr("name", "veohFlashPlayerEmbed")]
      && Get(e.attrs, "src") == Get(obj.children[0].attrs, "value")
      && Get(e.attrs, "width") == Get(obj.attrs, "width")
      && Get(e.attrs, "height") == Get(obj.attrs, "height")
  {
  }

  /** YahooScreen keeps the seven iframe attributes and appends `scrolling="no"` last. */
  lemma YahooScreenShape(groups: map<string, string>, width: string, height: string)
    requires GroupNames(YahooScreen) <= groups.Keys
    ensures var f := EmbedSized(YahooScreen, groups, width, height).value;
      && EmbedSized(YahooScreen, groups, width, height).Success?
      && f.tag == "iframe" && f.children == []
      && Items(f.attrs) == Items(IframeAttrs(VideoUrl(YahooScreen, groups), width, height)) + [Attr("scrolling", "no")]
  {
    var a := IframeAttrs(VideoUrl(YahooScreen, groups), width, height);
    assert "scrolling" !in a.values;
  }

  /** The two youtube forms build the same element from the same arguments. */
  lemma YoutubeFormsAgree(groups: map<string, string>, cfg: Table)
    requires "youtubeargs" in groups && Complete(cfg)
    ensures Embed(Youtube, groups, cfg) == Embed(YoutubeShort, groups, cfg)
    ensures Embed(Youtube, groups, cfg) ==
      Success(Iframe("http://www.youtube.com/v/" + groups["youtubeargs"],
                     cfg["youtube_width"].value, cfg["youtube_height"].value))
  {
  }

  /** Only the recognizer's own width and height options matter. */
  lemma OwnOptionsOnly(svc: Service, groups: map<string, string>, cfg1: Table, cfg2: Table)
    requires GroupNames(svc) <= groups.Keys && Complete(cfg1) && Complete(cfg2)
    requires cfg1[WidthKey(svc)].value == cfg2[WidthKey(svc)].value
    requires cfg1[HeightKey(svc)].value == cfg2[HeightKey(svc)].value
    ensures Embed(svc, groups, cfg1) == Embed(svc, groups, cfg2)
  {
  }

  /** `e2` is `e1` with `width` and `height` set to `w2` and `h2`, and nothing else changed. */
  predicate SizedAs(e1: Fragment, e2: Fragment, w2: string, h2: string)
  {
    && e2.tag == e1.tag
    && e2.attrs == SetAttr(SetAttr(e1.attrs, "width", w2), "height", h2)
    && e2.children == e1.children
  }

  /**
   * `f2` is `f1` with new dimensions: the tag, the attribute order, `src` and the
   * params are as they were, and `width` and `height` now read `w2` and `h2`;
   * an `object`'s two params are unchanged and any child after them (Veoh's
   * `embed`) gets the new dimensions too; an element other than an `object`
   * keeps its children as they were.
   */
  predicate Resized(f1: Fragment, f2: Fragment, w2: string, h2: string)
  {
    && SizedAs(Fragment(f1.tag, f1.attrs, []), Fragment(f2.tag, f2.attrs, []), w2, h2)
    && |f2.children| == |f1.children|
    && (f1.tag != "object" ==> f2.children == f1.children)
    && (f1.tag == "object" ==>
          && 2 <= |f1.children| && f2.children[..2] == f1.children[..2]
          && forall k :: 2 <= k < |f1.children| ==> SizedAs(f1.children[k], f2.children[k], w2, h2))
  }

  /** Setting `width` and `height` on Veoh's `embed` gives the `embed` of the new dimensions. */
  lemma VeohEmbedResize(url: string, w1: string, h1: string, w2: string, h2: string)
    ensures SizedAs(VeohEmbed(url, w1, h1), VeohEmbed(url, w2, h2), w2, h2)
  {
    assert SetAttr(SetAttr(VeohEmbed(url, w1, h1).attrs, "width", w2), "height", h2).values
        == VeohEmbed(url, w2, h2).attrs.values;
  }

  lemma ResizeIframe(svc: Service, groups: map<string, string>, w1: string, h1: string, w2: string, h2: string)
    requires GroupNames(svc) <= groups.Keys && svc in {Dailymotion, Metacafe, Vimeo, Youtube, YoutubeShort}
    ensures EmbedSized(svc, groups, w1, h1).Success? && EmbedSized(svc, groups, w2, h2).Success?
    ensures Resized(EmbedSized(svc, groups, w1, h1).value, EmbedSized(svc, groups, w2, h2).value, w2, h2)
  {
    IframeResize(VideoUrl(svc, groups), w1, h1, w2, h2);
  }

  lemma ResizeFlash(svc: Service, groups: map<string, string>, w1: string, h1: string, w2: string, h2: string)
    requires GroupNames(svc) <= groups.Keys && svc in {Gametrailers, Veoh}
    ensures EmbedSized(svc, groups, w1, h1).Success? && EmbedSized(svc, groups, w2, h2).Success?
    ensures Resized(EmbedSized(svc, groups, w1, h1).value, EmbedSized(svc, groups, w2, h2).value, w2, h2)
  {
    var url := VideoUrl(svc, groups);
    FlashResize(url, w1, h1, w2, h2);
    if svc == Veoh {
      VeohEmbedResize(url, w1, h1, w2, h2);
      var f2 := EmbedSized(svc, groups, w2, h2).value;
      assert f2.children[2] == VeohEmbed(url, w2, h2);
    }
  }

  lemma ResizeYahooScreen(groups: map<string, string>, w1: string, h1: string, w2: string, h2: string)
    requires GroupNames(YahooScreen) <= groups.Keys
    ensures EmbedSized(YahooScreen, groups, w1, h1).Success? && EmbedSized(YahooScreen, groups, w2, h2).Success?
    ensures Resized(EmbedSized(YahooScreen, groups, w1, h1).value, EmbedSized(YahooScreen, groups, w2, h2).value, w2, h2)
  {
    var url := VideoUrl(YahooScreen, groups);
    var a1 := IframeAttrs(url, w1, h1);
    SetAttrCommute(a1, "scrolling", "no", "width", w2);
    SetAttrCommute(SetAttr(a1, "width", w2), "scrolling", "no", "height", h2);
    IframeResize(url, w1, h1, w2, h2);
  }

  /** Changing the dimensions of any recognizer's element changes only its `width` and `height`. */
  lemma ResizeChangesOnlyDimensions(svc: Service, groups: map<string, string>,
                                    w1: string, h1: string, w2: string, h2: string)
    requires GroupNames(svc) <= groups.Keys && svc != Yahoo
    ensures EmbedSized(svc, groups, w1, h1).Success? && EmbedSized(svc, groups, w2, h2).Success?
    ensures Resized(EmbedSized(svc, groups, w1, h1).value, EmbedSized(svc, groups, w2, h2).value, w2, h2)
  {
    match svc
    case Gametrailers => ResizeFlash(svc, groups, w1, h1, w2, h2);
    case Veoh => ResizeFlash(svc, groups, w1, h1, w2, h2);
    case YahooScreen => ResizeYahooScreen(groups, w1, h1, w2, h2);
    case _ => ResizeIframe(svc, groups, w1, h1, w2, h2);
  }

  /** The groups of a match hold what the pattern says. */
  lemma ScanGroupsShape(svc: Service, text: string, pos: nat)
    requires pos <= |text| && Scan(svc, text, pos).Some?
    ensures GroupsShape(svc, Scan(svc, text, pos).value.groups)
  {
    var m := Scan(svc, text, pos).value;
    HostGroupsShape(svc, text, SchemeEnd(text, m.url).value);
  }

  /** A Dailymotion id has no `_`, and it is spliced verbatim into `src`. */
  lemma DailymotionSourceOf(groups: map<string, string>, cfg: Table)
    requires GroupsShape(Dailymotion, groups) && Complete(cfg)
    ensures var id := groups["dailymotionid"];
      && id != [] && '_' !in id
      && Embed(Dailymotion, groups, cfg).Success?
      && Get(Embed(Dailymotion, groups, cfg).value.attrs, "src") == Some(DailymotionPrefix + id)
  {
    var id := groups["dailymotionid"];
    assert forall k :: 0 <= k < |id| ==> id[k] != '_';
  }

  /** The same, for the id a Dailymotion match captures. */
  lemma DailymotionSource(text: string, pos: nat, cfg: Table)
    requires pos <= |text| && Scan(Dailymotion, text, pos).Some? && Complete(cfg)
    ensures var g := Scan(Dailymotion, text, pos).value.groups;
      && g["dailymotionid"] != [] && '_' !in g["dailymotionid"]
      && Embed(Dailymotion, g, cfg).Success?
      && Get(Embed(Dailymotion, g, cfg).value.attrs, "src") == Some(DailymotionPrefix + g["dailymotionid"])
  {
    ScanGroupsShape(Dailymotion, text, pos);
    DailymotionSourceOf(Scan(Dailymotion, text, pos).value.groups, cfg);
  }

  /** A Vimeo id is digits only, so no `?query` reaches `src`, which is the player URL and the id. */
  lemma VimeoSourceOf(groups: map<string, string>, cfg: Table)
    requires GroupsShape(Vimeo, groups) && Complete(cfg)
    ensures var id := groups["vimeoid"];
      && id != [] && '?' !in id
      && Embed(Vimeo, groups, cfg).Success?
      && Get(Embed(Vimeo, groups, cfg).value.attrs, "src") == Some(VimeoPrefix + id)
  {
    var id := groups["vimeoid"];
    assert forall k :: 0 <= k < |id| ==> id[k] != '?';
  }

  /** The same, for the id a Vimeo match captures. */
  lemma VimeoSource(text: string, pos: nat, cfg: Table)
    requires pos <= |text| && Scan(Vimeo, text, pos).Some? && Complete(cfg)
    ensures var g := Scan(Vimeo, text, pos).value.groups;
      && g["vimeoid"] != [] && AllIn(Digit, g["vimeoid"]) && '?' !in g["vimeoid"]
      && Embed(Vimeo, g, cfg).Success?
      && Get(Embed(Vimeo, g, cfg).value.attrs, "src") == Some(VimeoPrefix + g["vimeoid"])
  {
    ScanGroupsShape(Vimeo, text, pos);
    VimeoSourceOf(Scan(Vimeo, text, pos).value.groups, cfg);
  }

  /** A Gametrailers id is digits, so the movie param's value is the relative `remote_wrap.php?mid=<id>`. */
  lemma GametrailersSource(text: string, pos: nat, cfg: Table)
    requires pos <= |text| && Scan(Gametrailers, text, pos).Some? && Complete(cfg)
    ensures var g := Scan(Gametrailers, text, pos).value.groups;
      && Embed(Gametrailers, g, cfg).Success?
      && Embed(Gametrailers, g, cfg).value.children[0] == Param("movie", "remote_wrap.php?mid=" + g["gametrailersid"])
  {
    var g := Scan(Gametrailers, text, pos).value.groups;
    ScanGroupsShape(Gametrailers, text, pos);
    assert forall k :: 0 <= k < |g["gametrailersid"]| ==> g["gametrailersid"][k] != '/';
    GametrailersUrlIsRelative(g);
  }

  // ----------------------------------------------------------------- methods

  /** The element a handler returned, as a value, or the error it raised. */
  function Outcome(r: Result<Element, BuildError>): Result<Fragment, BuildError>
    reads if r.Success? then {r.value} else {}
  {
    match r
    case Success(obj) => Success(obj.Value())
    case Failure(e) => Failure(e)
  }

  /** `Dailymotion.handleMatch`, and likewise for every handler below. */
  method HandleDailymotion(groups: map<string, string>, ext: VideoExtension) returns (r: Result<Element, BuildError>)
    requires "dailymotionid" in groups && ext.Valid()
    ensures r.Success? && fresh(r.value) && Outcome(r) == Embed(Dailymotion, groups, ext.config)
  {
    var url := Fill(DailymotionPrefix, "", groups["dailymotionid"]);
    var obj := IframeObject(url, ext.config["dailymotion_width"].value, ext.config["dailymotion_height"].value);
    r := Success(obj);
  }

  method HandleGametrailers(groups: map<string, string>, ext: VideoExtension) returns (r: Result<Element, BuildError>)
    requires "gametrailersid" in groups && ext.Valid()
    ensures r.Success? && fresh(r.value) && Outcome(r) == Embed(Gametrailers, groups, ext.config)
  {
    var url := LastSegment(Fill(GametrailersPrefix, "", groups["gametrailersid"]));
    var obj := FlashObject(url, ext.config["gametrailers_width"].value, ext.config["gametrailers_height"].value);
    r := Success(obj);
  }

  method HandleMetacafe(groups: map<string, string>, ext: VideoExtension) returns (r: Result<Element, BuildError>)
    requires "metacafeid" in groups && ext.Valid()
    ensures r.Success? && fresh(r.value) && Outcome(r) == Embed(Metacafe, groups, ext.config)
  {
    var url := Fill(MetacafePrefix, "/", groups["metacafeid"]);
    var obj := IframeObject(url, ext.config["metacafe_width"].value, ext.config["metacafe_height"].value);
    r := Success(obj);
  }

  method HandleVeoh(groups: map<string, string>, ext: VideoExtension) returns (r: Result<Element, BuildError>)
    requires "veohid" in groups && ext.Valid()
    ensures r.Success? && fresh(r.value) && Outcome(r) == Embed(Veoh, groups, ext.config)
  {
    var url := Fill(VeohPrefix, VeohSuffix, groups["veohid"]);
    var width, height := ext.config["veoh_width"].value, ext.config["veoh_height"].value;
    var obj := FlashObject(url, width, height);
    var param := NewVeohEmbed(url, width, height);
    obj.Append(param);
    r := Success(obj);
  }

  /** The `embed` element Veoh builds: a new element and six `set` calls. */
  method NewVeohEmbed(url: string, width: string, height: string) returns (param: Element)
    ensures fresh(param) && param.Value() == VeohEmbed(url, width, height)
  {
    param := new Element("embed");
    param.Set("src", url);
    param.Set("type", "application/x-shockwave-flash");
    param.Set("allowfullscreen", "true");
    param.Set("width", width);
    param.Set("height", height);
    param.Set("name", "veohFlashPlayerEmbed");
  }

  method HandleVimeo(groups: map<string, string>, ext: VideoExtension) returns (r: Result<Element, BuildError>)
    requires "vimeoid" in groups && ext.Valid()
    ensures r.Success? && fresh(r.value) && Outcome(r) == Embed(Vimeo, groups, ext.config)
  {
    var url := Fill(VimeoPrefix, "", groups["vimeoid"]);
    var obj := IframeObject(url, ext.config["vimeo_width"].value, ext.config["vimeo_height"].value);
    r := Success(obj);
  }

  /**
   * Builds the object and the `flashVars` param, then formats the param's value,
   * which raises: the error is what it returns.
   */
  method HandleYahoo(groups: map<string, string>, ext: VideoExtension) returns (r: Result<Element, BuildError>)
    requires "yahoovid" in groups && "yahooid" in groups && ext.Valid()
    ensures r.Failure? && Outcome(r) == Embed(Yahoo, groups, ext.config)
  {
    var url := YahooPlayer;
    var obj := FlashObject(url, ext.config["yahoo_width"].value, ext.config["yahoo_height"].value);
    var param := new Element("param");
    param.Set("name", "flashVars");
    var value := Format(FlashVars, [YahooPair(groups["yahooid"], groups["yahoovid"])]);
    // the `set('value', ...)` and `append` that would follow are never reached
    r := Failure(value.error);
  }

  method HandleYahooScreen(groups: map<string, string>, ext: VideoExtension) returns (r: Result<Element, BuildError>)
    requires "yahooscreenid" in groups && ext.Valid()
    ensures r.Success? && fresh(r.value) && Outcome(r) == Embed(YahooScreen, groups, ext.config)
  {
    var url := Fill(YahooScreenPrefix, YahooScreenSuffix, groups["yahooscreenid"]);
    var obj := IframeObject(url, ext.config["yahoo_width"].value, ext.config["yahoo_height"].value);
    obj.Set("scrolling", "no");
    r := Success(obj);
  }

  method HandleYoutube(groups: map<string, string>, ext: VideoExtension) returns (r: Result<Element, BuildError>)
    requires "youtubeargs" in groups && ext.Valid()
    ensures r.Success? && fresh(r.value) && Outcome(r) == Embed(Youtube, groups, ext.config)
  {
    var url := Fill(YoutubePrefix, "", groups["youtubeargs"]);
    var obj := IframeObject(url, ext.config["youtube_width"].value, ext.config["youtube_height"].value);
    r := Success(obj);
  }

  method HandleYoutubeShort(groups: map<string, string>, ext: VideoExtension) returns (r: Result<Element, BuildError>)
    requires "youtubeargs" in groups && ext.Valid()
    ensures r.Success? && fresh(r.value) && Outcome(r) == Embed(YoutubeShort, groups, ext.config)
  {
    var url := Fill(YoutubePrefix, "", groups["youtubeargs"]);
    var obj := IframeObject(url, ext.config["youtube_width"].value, ext.config["youtube_height"].value);
    r := Success(obj);
  }

  /** The handler of the recognizer `svc`. */
  method HandleMatch(svc: Service, groups: map<string, string>, ext: VideoExtension)
    returns (r: Result<Element, BuildError>)
    requires GroupNames(svc) <= groups.Keys && ext.Valid()
    ensures r.Success? ==> fresh(r.value)
    ensures Outcome(r) == Embed(svc, groups, ext.config)
  {
    match svc
    case Dailymotion => r := HandleDailymotion(groups, ext);
    case Gametrailers => r := HandleGametrailers(groups, ext);
    case Metacafe => r := HandleMetacafe(groups, ext);
    case Veoh => r := HandleVeoh(groups, ext);
    case Vimeo => r := HandleVimeo(groups, ext);
    case Yahoo => r := HandleYahoo(groups, ext);
    case YahooScreen => r := HandleYahooScreen(groups, ext);
    case Youtube => r := HandleYoutube(groups, ext);
    case YoutubeShort => r := HandleYoutubeShort(groups, ext);
  }

  /**
   * One position of the text: the recognizers in registration order, and the
   * handler of the one that matches, if any.
   */
  method ExpandAt(text: string, pos: nat, ext: VideoExtension) returns (r: Option<(Service, Result<Element, BuildError>)>)
    requires pos <= |text| && ext.Valid()
    ensures r.None? <==> forall s :: s in Registry ==> Scan(s, text, pos).None?
    ensures r.Some? ==>
      && Scan(r.value.0, text, pos).Some?
      && Outcome(r.value.1) == Embed(r.value.0, Scan(r.value.0, text, pos).value.groups, ext.config)
  {
    match Recognize(text, pos)
    case None =>
      r := None;
    case Some((svc, m)) =>
      var built := HandleMatch(svc, m.groups, ext);
      r := Some((svc, built));
  }
}
