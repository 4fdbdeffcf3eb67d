/**
 * The expectations of the module's doctests, stated on the model: what the
 * recognizers capture from the doctest inputs and the elements the handlers
 * build, before the serializer sorts attributes and escapes `&`.  Each
 * doctest is an instance of a lemma over any id of the right shape.
 */
module Doctests {
  import opened Wrappers
  import opened Markup
  import opened Builders
  import opened Scanner
  import opened Config
  import opened Handlers
  import opened Captures

  // ---------------------------------------------------------------- helpers

  lemma HttpScheme(rest: string)
    ensures SchemeEnd("http://" + rest, 0) == Some(7)
  {
    assert ("http://" + rest)[4] != "https://"[4];
    LitAtJoin("", "http://", rest);
  }

  lemma HttpsScheme(rest: string)
    ensures SchemeEnd("https://" + rest, 0) == Some(8)
  {
    LitAtJoin("", "https://", rest);
  }

  /** A URL at the very start of the text is found through `^`, with an empty lead character. */
  lemma StartOfText(svc: Service, text: string)
    requires LitAt(text, 0, "http")
    ensures Scan(svc, text, 0) == match UrlAt(svc, text, 0)
      case Some(c) => Some(Match("", 0, c.groups, c.end))
      case None => None
  {
    LitChars(text, 0, "http");
    assert SchemeEnd(text, 1).None? by {
      assert text[1] == 't';
    }
  }

  /** An `http://` URL at the very start of the text is matched exactly when its host part is. */
  lemma HttpAtStart(svc: Service, rest: string)
    ensures Scan(svc, "http://" + rest, 0) == match ScanHost(svc, "http://" + rest, 7)
      case Some(c) => Some(Match("", 0, c.groups, c.end))
      case None => None
  {
    HttpScheme(rest);
    LitAtJoin("", "http", "://" + rest);
    StartOfText(svc, "http://" + rest);
  }

  /** An `https://` URL at the very start of the text is matched exactly when its host part is. */
  lemma HttpsAtStart(svc: Service, rest: string)
    ensures Scan(svc, "https://" + rest, 0) == match ScanHost(svc, "https://" + rest, 8)
      case Some(c) => Some(Match("", 0, c.groups, c.end))
      case None => None
  {
    HttpsScheme(rest);
    assert "https://" + rest == "" + "http" + ("s://" + rest);
    LitAtJoin("", "http", "s://" + rest);
    StartOfText(svc, "https://" + rest);
  }

  /** An `http://` URL at the start of the text whose host part matches is what registration order recognizes. */
  lemma HttpRecognized(svc: Service, text: string, c: Capture)
    requires LitAt(text, 0, "http://") && ScanHost(svc, text, 7) == Some(c)
    ensures Recognize(text, 0) == Some((svc, Match("", 0, c.groups, c.end)))
  {
    assert text == "http://" + text[7..];
    HttpAtStart(svc, text[7..]);
    RecognizeFindsTheMatch(svc, text, 0);
  }

  /** The same for an `https://` URL. */
  lemma HttpsRecognized(svc: Service, text: string, c: Capture)
    requires LitAt(text, 0, "https://") && ScanHost(svc, text, 8) == Some(c)
    ensures Recognize(text, 0) == Some((svc, Match("", 0, c.groups, c.end)))
  {
    assert text == "https://" + text[8..];
    HttpsAtStart(svc, text[8..]);
    RecognizeFindsTheMatch(svc, text, 0);
  }

  // ------------------------------------------------------- default sizes

  /** The dailymotion defaults: 480 by 270. */
  lemma DailymotionSize()
    ensures Defaults()["dailymotion_width"].value == "480" && Defaults()["dailymotion_height"].value == "270"
  {
  }

  /** The metacafe defaults: 440 by 248. */
  lemma MetacafeSize()
    ensures Defaults()["metacafe_width"].value == "440" && Defaults()["metacafe_height"].value == "248"
  {
  }

  /** The veoh defaults: 410 by 341. */
  lemma VeohSize()
    ensures Defaults()["veoh_width"].value == "410" && Defaults()["veoh_height"].value == "341"
  {
  }

  /** The vimeo defaults: 500 by 321. */
  lemma VimeoSize()
    ensures Defaults()["vimeo_width"].value == "500" && Defaults()["vimeo_height"].value == "321"
  {
  }

  /** The yahoo defaults, which Yahoo! screen uses too: 640 by 360. */
  lemma YahooSize()
    ensures Defaults()["yahoo_width"].value == "640" && Defaults()["yahoo_height"].value == "360"
  {
  }

  /** The youtube defaults, which the short form uses too: 420 by 315. */
  lemma YoutubeSize()
    ensures Defaults()["youtube_width"].value == "420" && Defaults()["youtube_height"].value == "315"
  {
  }

  // ------------------------------------------------------------------- vimeo

  /** A bare `http://vimeo.com/<digits><rest>` at the start of the text is matched whole. */
  lemma VimeoAtStart(id: string, rest: string)
    requires id != [] && AllIn(Digit, id) && AllIn(NonSpace, rest) && (rest == [] || !IsDigit(rest[0]))
    ensures Scan(Vimeo, "http://" + "vimeo.com/" + id + rest, 0)
         == Some(Match("", 0, map["vimeoid" := id], |"http://" + "vimeo.com/" + id + rest|))
  {
    var tail := "vimeo.com/" + id + rest;
    assert "http://" + "vimeo.com/" + id + rest == "http://" + tail;
    assert ScanHost(Vimeo, "http://" + tail, 7) == Some(Capture(map["vimeoid" := id], |"http://" + tail|)) by {
      VimeoHostOf("http://", id, rest);
    }
    HttpAtStart(Vimeo, tail);
  }

  /** "Test Vimeo Video with some GET values": the id stops at the `?`, which never reaches `src`. */
  lemma VimeoWithQuery(text: string)
    requires text == "http://" + "vimeo.com/" + "1496152" + "?test=test"
    ensures Scan(Vimeo, text, 0) == Some(Match("", 0, map["vimeoid" := "1496152"], |text|))
  {
    var id, rest := "1496152", "?test=test";
    VisibleIsNonSpace(rest);
    VimeoAtStart(id, rest);
  }

  /** Registration order finds the same match: no other pattern accepts a Vimeo URL. */
  lemma VimeoRecognizedAtStart(id: string, rest: string)
    requires id != [] && AllIn(Digit, id) && AllIn(NonSpace, rest) && (rest == [] || !IsDigit(rest[0]))
    ensures Recognize("http://" + "vimeo.com/" + id + rest, 0)
         == Some((Vimeo, Match("", 0, map["vimeoid" := id], |"http://" + "vimeo.com/" + id + rest|)))
  {
    VimeoAtStart(id, rest);
    RecognizeFindsTheMatch(Vimeo, "http://" + "vimeo.com/" + id + rest, 0);
  }

  /** "Test Vimeo Video with some GET values", through the registered patterns. */
  lemma VimeoWithQueryRecognized(text: string)
    requires text == "http://" + "vimeo.com/" + "1496152" + "?test=test"
    ensures Recognize(text, 0) == Some((Vimeo, Match("", 0, map["vimeoid" := "1496152"], |text|)))
  {
    var id, rest := "1496152", "?test=test";
    VisibleIsNonSpace(rest);
    VimeoRecognizedAtStart(id, rest);
  }

  /** "Test Vimeo Video": the `www.` host, through the registered patterns; the id is the whole tail. */
  lemma VimeoWwwMatch(text: string)
    requires text == "http://" + "www." + "vimeo.com/" + "1496152"
    ensures Recognize(text, 0) == Some((Vimeo, Match("", 0, map["vimeoid" := "1496152"], |text|)))
  {
    VimeoWwwText(text);
    VimeoWwwScan(text, "1496152");
    HttpRecognized(Vimeo, text, Capture(map["vimeoid" := "1496152"], |text|));
  }

  /** Where the pieces of "Test Vimeo Video"'s address lie. */
  lemma VimeoWwwText(text: string)
    requires text == "http://" + "www." + "vimeo.com/" + "1496152"
    ensures LitAt(text, 0, "http://") && LitAt(text, 7, "www.") && LitAt(text, 11, "vimeo.com/")
    ensures LitAt(text, 21, "1496152") && AllIn(Digit, "1496152") && |text| == 28
  {
    Joined3("http://", "www.", "vimeo.com/", "1496152");
    assert text[0..7] == "http://";
  }

  /** The host part of "Test Vimeo Video" is read by the `www.` branch; the id runs to the end. */
  lemma VimeoWwwScan(text: string, id: string)
    requires LitAt(text, 7, "www.") && LitAt(text, 11, "vimeo.com/")
    requires LitAt(text, 21, id) && id != [] && AllIn(Digit, id) && 21 + |id| == |text|
    ensures ScanHost(Vimeo, text, 7) == Some(Capture(map["vimeoid" := id], |text|))
  {
    LitIsPat(text, 7, "www.");
    assert LitAt(text, 21 + |id|, "");
    VimeoWwwCapture(text, 7, id, "");
  }

  /** The Vimeo doctests' element: the default 500 by 321 player for id `1496152`. */
  lemma VimeoDefaults()
    ensures Embed(Vimeo, map["vimeoid" := "1496152"], Defaults())
         == Success(Iframe("https://player.vimeo.com/video/1496152", "500", "321"))
  {
    VimeoSize();
    assert VimeoPrefix + "1496152" + "" == "https://player.vimeo.com/video/1496152";
  }

  // ---------------------------------------------------------------- metacafe

  /** `http://www.metacafe.com/watch/<id>/<rest>` at the start of the text is matched whole. */
  lemma MetacafeAtStart(id: string, rest: string)
    requires id != [] && AllIn(WordOrDash, id) && rest != [] && AllIn(NonSpace, rest)
    ensures Scan(Metacafe, "http://" + "www.metacafe.com/watch/" + id + "/" + rest, 0)
         == Some(Match("", 0, map["metacafeid" := id], |"http://" + "www.metacafe.com/watch/" + id + "/" + rest|))
  {
    var tail := "www.metacafe.com/watch/" + id + "/" + rest;
    assert "http://" + "www.metacafe.com/watch/" + id + "/" + rest == "http://" + tail;
    assert ScanHost(Metacafe, "http://" + tail, 7) == Some(Capture(map["metacafeid" := id], |"http://" + tail|)) by {
      MetacafeHostOf("http://", id, rest);
    }
    HttpAtStart(Metacafe, tail);
  }

  /** Metacafe's element: the id between `embed/` and a closing `/`, sized by the metacafe options. */
  lemma MetacafeEmbedOf(id: string, cfg: Table)
    requires Complete(cfg)
    ensures Embed(Metacafe, map["metacafeid" := id], cfg)
         == Success(Iframe("http://www.metacafe.com/embed/" + id + "/", cfg["metacafe_width"].value, cfg["metacafe_height"].value))
  {
  }

  /** Registration order finds the same match: no other pattern accepts a Metacafe URL. */
  lemma MetacafeRecognizedAtStart(id: string, rest: string)
    requires id != [] && AllIn(WordOrDash, id) && rest != [] && AllIn(NonSpace, rest)
    ensures Recognize("http://" + "www.metacafe.com/watch/" + id + "/" + rest, 0)
         == Some((Metacafe, Match("", 0, map["metacafeid" := id], |"http://" + "www.metacafe.com/watch/" + id + "/" + rest|)))
  {
    MetacafeAtStart(id, rest);
    RecognizeFindsTheMatch(Metacafe, "http://" + "www.metacafe.com/watch/" + id + "/" + rest, 0);
  }

  /**
   * "Test Metacafe": the whole URL is the match, with id `11419683`.  The doctest's
   * URL is written here cut into the pieces the pattern reads.
   */
  lemma MetacafeMatch(text: string)
    requires text == "http://" + "www.metacafe.com/watch/" + "11419683" + "/" + "killing_luke_skywalker_battlefront/"
    ensures Recognize(text, 0) == Some((Metacafe, Match("", 0, map["metacafeid" := "11419683"], |text|)))
  {
    var id, rest := "11419683", "killing_luke_skywalker_battlefront/";
    VisibleIsNonSpace(rest);
    assert AllIn(WordOrDash, id);
    MetacafeRecognizedAtStart(id, rest);
  }

  /** The embed URL of the doctest's id. */
  lemma MetacafeEmbedUrl()
    ensures "http://www.metacafe.com/embed/" + "11419683" + "/" == "http://www.metacafe.com/embed/11419683/"
  {
  }

  /** "Test Metacafe": with the default options the element is 440 by 248. */
  lemma MetacafeDefaults()
    ensures Embed(Metacafe, map["metacafeid" := "11419683"], Defaults())
         == Success(Iframe("http://www.metacafe.com/embed/11419683/", "440", "248"))
  {
    MetacafeSize();
    MetacafeEmbedUrl();
    MetacafeEmbedOf("11419683", Defaults());
  }

  /** Two different known options supplied in turn: each holds the value given, the rest are kept. */
  lemma OverrideTwo(t: Table, k1: string, v1: string, k2: string, v2: string)
    requires k1 in t && k2 in t && k1 != k2
    ensures var u := Override(t, [(k1, v1), (k2, v2)]);
      && u.Success? && u.value.Keys == t.Keys
      && u.value[k1].value == v1 && u.value[k2].value == v2
      && forall k :: k in t && k != k1 && k != k2 ==> u.value[k] == t[k]
  {
    var options := [(k1, v1), (k2, v2)];
    assert options[..1] == [(k1, v1)] && options[..1][..0] == [];
    var u1 := SetConfig(t, k1, v1).value;
    assert Override(t, options[..1]) == Success(u1);
    assert Override(t, options) == SetConfig(u1, k2, v2);
  }

  /** Supplying both metacafe options resizes the element whatever the table held before. */
  lemma MetacafeResizedBy(t: Table, id: string, width: string, height: string)
    requires Complete(t)
    ensures var cfg := Override(t, [("metacafe_width", width), ("metacafe_height", height)]);
      && cfg.Success? && Complete(cfg.value)
      && Embed(Metacafe, map["metacafeid" := id], cfg.value)
      == Success(Iframe("http://www.metacafe.com/embed/" + id + "/", width, height))
  {
    OverrideTwo(t, "metacafe_width", width, "metacafe_height", height);
    MetacafeEmbedOf(id, Override(t, [("metacafe_width", width), ("metacafe_height", height)]).value);
  }

  /** "Test Metacafe with arguments": the two supplied options resize the element, and `src` stays. */
  lemma MetacafeWithArguments()
    ensures var cfg := Override(Defaults(), [("metacafe_width", "500"), ("metacafe_height", "425")]);
      && cfg.Success? && Complete(cfg.value)
      && Embed(Metacafe, map["metacafeid" := "11419683"], cfg.value)
      == Success(Iframe("http://www.metacafe.com/embed/11419683/", "500", "425"))
  {
    MetacafeEmbedUrl();
    MetacafeResizedBy(Defaults(), "11419683", "500", "425");
  }

  // ------------------------------------------------------------- dailymotion

  /** `http://www.dailymotion.com/video/<id>_<rest>` at the start of the text is recognized whole. */
  lemma DailymotionRecognizedAtStart(id: string, rest: string)
    requires id != [] && AllIn(NotUnderscore, id) && rest != [] && AllIn(NonSpace, rest)
    ensures Recognize("http://" + "www.dailymotion.com/video/" + id + "_" + rest, 0)
         == Some((Dailymotion, Match("", 0, map["dailymotionid" := id], |"http://" + "www.dailymotion.com/video/" + id + "_" + rest|)))
  {
    var tail := "www.dailymotion.com/video/" + id + "_" + rest;
    assert "http://" + "www.dailymotion.com/video/" + id + "_" + rest == "http://" + tail;
    assert ScanHost(Dailymotion, "http://" + tail, 7) == Some(Capture(map["dailymotionid" := id], |"http://" + tail|)) by {
      DailymotionHostOf("http://", id, rest);
    }
    HttpAtStart(Dailymotion, tail);
    RecognizeFindsTheMatch(Dailymotion, "http://" + tail, 0);
  }

  /**
   * "Test Dailymotion": the id is `x3b3ec0`, the part before the first `_`.  The
   * doctest's URL is written here cut into the pieces the pattern reads.
   */
  lemma DailymotionMatch(text: string)
    requires text == "http://" + "www.dailymotion.com/video/" + "x3b3ec0" + "_"
                   + ("wingsuit-slalom-racing-8-" + "000-feet-above-the-ground_sport")
    ensures Recognize(text, 0) == Some((Dailymotion, Match("", 0, map["dailymotionid" := "x3b3ec0"], |text|)))
  {
    var id, r1, r2 := "x3b3ec0", "wingsuit-slalom-racing-8-", "000-feet-above-the-ground_sport";
    var rest := r1 + r2;
    assert AllIn(NonSpace, rest) by {
      VisibleIsNonSpace(r1);
      VisibleIsNonSpace(r2);
      AllInJoin(NonSpace, r1, r2);
    }
    assert AllIn(NotUnderscore, id);
    DailymotionRecognizedAtStart(id, rest);
  }

  /** "Test Dailymotion": the default 480 by 270 player. */
  lemma DailymotionDefaults()
    ensures Embed(Dailymotion, map["dailymotionid" := "x3b3ec0"], Defaults())
         == Success(Iframe("http://www.dailymotion.com/embed/video/" + "x3b3ec0", "480", "270"))
  {
    DailymotionSize();
  }

  // -------------------------------------------------------------------- veoh

  /** "Test Veoh Video": the id after `watch/`, through the registered patterns. */
  lemma VeohMatch(text: string)
    requires text == "http://" + "www.veoh.com/" + "watch/" + "v95981404eQdfjw2E"
    ensures Recognize(text, 0) == Some((Veoh, Match("", 0, map["veohid" := "v95981404eQdfjw2E"], |text|)))
  {
    VeohText(text);
    VeohIdShape();
    VeohScan(text, "v95981404eQdfjw2E");
    HttpRecognized(Veoh, text, Capture(map["veohid" := "v95981404eQdfjw2E"], |text|));
  }

  /** Where the pieces of "Test Veoh Video"'s address lie. */
  lemma VeohText(text: string)
    requires text == "http://" + "www.veoh.com/" + "watch/" + "v95981404eQdfjw2E"
    ensures LitAt(text, 0, "http://") && LitAt(text, 7, "www.veoh.com/") && LitAt(text, 20, "watch/")
    ensures LitAt(text, 26, "v95981404eQdfjw2E") && |text| == 43
  {
    Joined3("http://", "www.veoh.com/", "watch/", "v95981404eQdfjw2E");
    assert text[0..7] == "http://";
  }

  /** The host part of "Test Veoh Video": no text between the host and `watch/`. */
  lemma VeohScan(text: string, id: string)
    requires LitAt(text, 7, "www.veoh.com/") && LitAt(text, 20, "watch/")
    requires LitAt(text, 26, id) && id != [] && AllIn(Word, id) && 26 + |id| == |text|
    ensures ScanHost(Veoh, text, 7) == Some(Capture(map["veohid" := id], |text|))
  {
    assert LitAt(text, 20, "");
    VeohCapture(text, 7, "", "watch/", id);
  }

  /** The doctest's Veoh id is made of word characters. */
  lemma VeohIdShape()
    ensures AllIn(Word, "v95981404eQdfjw2E")
  {
  }

  /**
   * "Test Veoh Video": a 410 by 341 object whose movie param and appended `embed`
   * both carry the player URL with `permalinkId=<id>`.
   */
  lemma VeohDefaults(id: string)
    requires id == "v95981404eQdfjw2E"
    ensures var url := VeohPrefix + id + VeohSuffix;
      Embed(Veoh, map["veohid" := id], Defaults())
      == Success(Fragment("object", Flash(url, "410", "341").attrs,
                          Flash(url, "410", "341").children + [VeohEmbed(url, "410", "341")]))
  {
    VeohSize();
  }

  // ------------------------------------------------------------ yahoo screen

  /**
   * "Test Yahoo! screen": the `https://` address of a `.html` page, through the
   * registered patterns.  The doctest's path is written here cut into pieces.
   */
  lemma YahooScreenMatch(path: string, text: string)
    requires path == "popular/" + "leto-nicholson-" + "ledger-hamill-" + "play-231207869"
    requires text == "https://" + "screen.yahoo.com/" + path + "." + "html"
    ensures Recognize(text, 0) == Some((YahooScreen, Match("", 0, map["yahooscreenid" := path], |text|)))
  {
    YahooScreenText(path, text);
    YahooScreenPathShape(path);
    YahooScreenScan(path, text);
    HttpsRecognized(YahooScreen, text, Capture(map["yahooscreenid" := path], |text|));
  }

  /** Where the pieces of "Test Yahoo! screen"'s address lie. */
  lemma YahooScreenText(path: string, text: string)
    requires text == "https://" + "screen.yahoo.com/" + path + "." + "html"
    ensures LitAt(text, 0, "https://") && LitAt(text, 8, "screen.yahoo.com/") && LitAt(text, 25, path)
    ensures LitAt(text, 25 + |path|, ".") && LitAt(text, 26 + |path|, "html") && |text| == 30 + |path|
  {
    Joined4("https://", "screen.yahoo.com/", path, ".", "html");
    assert text[0..8] == "https://";
  }

  /** The host part of "Test Yahoo! screen": the `.` before `html` is the stop. */
  lemma YahooScreenScan(path: string, text: string)
    requires path != [] && AllIn(PathChar, path)
    requires LitAt(text, 8, "screen.yahoo.com/") && LitAt(text, 25, path)
    requires LitAt(text, 25 + |path|, ".") && LitAt(text, 26 + |path|, "html")
    ensures ScanHost(YahooScreen, text, 8) == Some(Capture(map["yahooscreenid" := path], 30 + |path|))
  {
    LitIsPat(text, 8, "screen.yahoo.com/");
    LitFirst(text, 25 + |path|, ".");
    YahooScreenCapture(text, 8, path);
  }

  /** The doctest's path is made of `[-\w/]` characters. */
  lemma YahooScreenPathShape(path: string)
    requires path == "popular/" + "leto-nicholson-" + "ledger-hamill-" + "play-231207869"
    ensures path != [] && AllIn(PathChar, path)
  {
    PathPieces();
    AllInJoin(PathChar, "popular/", "leto-nicholson-");
    AllInJoin(PathChar, "popular/" + "leto-nicholson-", "ledger-hamill-");
    AllInJoin(PathChar, "popular/" + "leto-nicholson-" + "ledger-hamill-", "play-231207869");
  }

  /** Each piece of the doctest's path is made of `[-\w/]` characters. */
  lemma PathPieces()
    ensures AllIn(PathChar, "popular/") && AllIn(PathChar, "leto-nicholson-")
    ensures AllIn(PathChar, "ledger-hamill-") && AllIn(PathChar, "play-231207869")
  {
  }

  /**
   * "Test Yahoo! screen": the path before `.html` is the id; `src` gets the
   * `.html?format=embed` suffix, the size is Yahoo's 640 by 360, and
   * `scrolling="no"` comes after the seven iframe attributes.
   */
  lemma YahooScreenDefaults(id: string)
    requires id == "popular/leto-nicholson-ledger-hamill-play-231207869"
    ensures Embed(YahooScreen, map["yahooscreenid" := id], Defaults())
         == Success(Fragment("iframe", SetAttr(IframeAttrs("https://screen.yahoo.com/" + id + ".html?format=embed", "640", "360"), "scrolling", "no"), []))
  {
    YahooSize();
  }

  // ----------------------------------------------------------------- youtube

  /**
   * "Test Youtube": a `watch?v=` address with further arguments, through the
   * registered patterns; the whole argument list is captured.  The doctest's
   * arguments are written here cut into their `&`-separated pieces.
   */
  lemma YoutubeMatch(args: string, text: string)
    requires args == "u1mA-0w8XPo" + "&hd=1&fs=1" + "&feature=PlayList" + "&p=34C6046F7FEACFD3"
                   + "&playnext=1" + "&playnext_from=PL" + "&index=1"
    requires text == "http://" + "www.youtube.com/" + "watch?" + "v=" + args
    ensures Recognize(text, 0) == Some((Youtube, Match("", 0, map["youtubeargs" := args], |text|)))
  {
    YoutubeText(args, text);
    YoutubeArgsShape(args);
    assert NoInnerStop(args);
    YoutubeScan(args, text);
    HttpRecognized(Youtube, text, Capture(map["youtubeargs" := args], |text|));
  }

  /**
   * The sample address in the comment above the Youtube pattern: its id holds
   * `v`s, but no `v=` after the one that follows `watch?`, so the whole
   * argument run is captured.
   */
  lemma YoutubeSampleMatch(args: string, text: string)
    requires args == "R2fwHjLvvk4" + "&feature=rec-LGOUT-" + "exp_stronger_r2-2r-1-HM"
    requires text == "http://" + "www.youtube.com/" + "watch?" + "v=" + args
    ensures Recognize(text, 0) == Some((Youtube, Match("", 0, map["youtubeargs" := args], |text|)))
  {
    YoutubeText(args, text);
    YoutubeSampleShape(args);
    YoutubeScan(args, text);
    HttpRecognized(Youtube, text, Capture(map["youtubeargs" := args], |text|));
  }

  /** The sample's arguments are argument characters, hold a `v` and no inner stop. */
  lemma YoutubeSampleShape(args: string)
    requires args == "R2fwHjLvvk4" + "&feature=rec-LGOUT-" + "exp_stronger_r2-2r-1-HM"
    ensures args != [] && AllIn(ArgChar, args) && NoInnerStop(args) && args[7] == 'v'
  {
    var p1, p2, p3 := "R2fwHjLvvk4", "&feature=rec-LGOUT-", "exp_stronger_r2-2r-1-HM";
    SamplePieces();
    AllInJoin(ArgChar, p1, p2);
    AllInJoin(ArgChar, p1 + p2, p3);
    assert p1 + p2 + p3 == p1 + (p2 + p3);
    NoInnerStopSplit(p1, p2 + p3);
    assert (p1 + (p2 + p3))[7] == p1[7];
  }

  /** The sample's id holds no `=`, and the pieces after it hold no `v`; all are argument characters. */
  lemma SamplePieces()
    ensures AllIn(ArgChar, "R2fwHjLvvk4") && '=' !in "R2fwHjLvvk4"
    ensures AllIn(ArgChar, "&feature=rec-LGOUT-") && 'v' !in "&feature=rec-LGOUT-"
    ensures AllIn(ArgChar, "exp_stronger_r2-2r-1-HM") && 'v' !in "exp_stronger_r2-2r-1-HM"
  {
    ArgPiece("&feature=rec-LGOUT-");
    ArgPiece("exp_stronger_r2-2r-1-HM");
  }

  /** A piece without `=` followed by one without `v` that does not start with `=`: no `v=` inside. */
  lemma NoInnerStopSplit(p: string, q: string)
    requires '=' !in p && 'v' !in q && (q == [] || q[0] != '=')
    ensures NoInnerStop(p + q)
  {
    forall k | 0 <= k < |p + q| - 2
      ensures !((p + q)[k] == 'v' && (p + q)[k + 1] == '=')
    {
      if k + 1 < |p| {
        assert (p + q)[k + 1] == p[k + 1];
      } else if k + 1 == |p| {
        assert (p + q)[k + 1] == q[0];
      } else {
        assert (p + q)[k] == q[k - |p|];
      }
    }
  }

  /** Where the pieces of "Test Youtube"'s address lie. */
  lemma YoutubeText(args: string, text: string)
    requires text == "http://" + "www.youtube.com/" + "watch?" + "v=" + args
    ensures LitAt(text, 0, "http://") && LitAt(text, 7, "www.youtube.com/") && LitAt(text, 23, "watch?")
    ensures LitAt(text, 29, "v=") && LitAt(text, 31, args) && 31 + |args| == |text|
  {
    Joined4("http://", "www.youtube.com/", "watch?", "v=", args);
    assert text[0..7] == "http://";
  }

  /** The host part of a `watch?v=` address: the only stop is the `v=` after `watch?`. */
  lemma YoutubeScan(args: string, text: string)
    requires args != [] && AllIn(ArgChar, args) && NoInnerStop(args)
    requires LitAt(text, 7, "www.youtube.com/") && LitAt(text, 23, "watch?")
    requires LitAt(text, 29, "v=") && LitAt(text, 31, args) && 31 + |args| == |text|
    ensures ScanHost(Youtube, text, 7) == Some(Capture(map["youtubeargs" := args], |text|))
  {
    assert LitAt(text, 29, "");
    YoutubeWatchCapture(text, 7, "", args);
  }

  /** The doctest's arguments are argument characters and hold no `v`. */
  lemma YoutubeArgsShape(args: string)
    requires args == "u1mA-0w8XPo" + "&hd=1&fs=1" + "&feature=PlayList" + "&p=34C6046F7FEACFD3"
                   + "&playnext=1" + "&playnext_from=PL" + "&index=1"
    ensures args != [] && AllIn(ArgChar, args) && 'v' !in args
  {
    ArgPieces();
    var p1, p2, p3, p4 := "u1mA-0w8XPo", "&hd=1&fs=1", "&feature=PlayList", "&p=34C6046F7FEACFD3";
    var p5, p6, p7 := "&playnext=1", "&playnext_from=PL", "&index=1";
    AllInJoin(ArgChar, p1, p2);
    AllInJoin(ArgChar, p1 + p2, p3);
    AllInJoin(ArgChar, p1 + p2 + p3, p4);
    AllInJoin(ArgChar, p1 + p2 + p3 + p4, p5);
    AllInJoin(ArgChar, p1 + p2 + p3 + p4 + p5, p6);
    AllInJoin(ArgChar, p1 + p2 + p3 + p4 + p5 + p6, p7);
  }

  /** Each piece of the doctest's arguments is made of argument characters other than `v`. */
  lemma ArgPieces()
    ensures AllIn(ArgChar, "u1mA-0w8XPo") && AllIn(ArgChar, "&hd=1&fs=1") && AllIn(ArgChar, "&feature=PlayList")
    ensures AllIn(ArgChar, "&p=34C6046F7FEACFD3") && AllIn(ArgChar, "&playnext=1")
    ensures AllIn(ArgChar, "&playnext_from=PL") && AllIn(ArgChar, "&index=1")
    ensures 'v' !in "u1mA-0w8XPo" && 'v' !in "&hd=1&fs=1" && 'v' !in "&feature=PlayList"
    ensures 'v' !in "&p=34C6046F7FEACFD3" && 'v' !in "&playnext=1"
    ensures 'v' !in "&playnext_from=PL" && 'v' !in "&index=1"
  {
    ArgPiece("u1mA-0w8XPo");
    ArgPiece("&hd=1&fs=1");
    ArgPiece("&feature=PlayList");
    ArgPiece("&p=34C6046F7FEACFD3");
    ArgPiece("&playnext=1");
    ArgPiece("&playnext_from=PL");
    ArgPiece("&index=1");
  }

  /** A piece of the arguments made of letters other than `v`, digits, `_`, `&`, `=` and `-`. */
  lemma ArgPiece(p: string)
    requires forall k :: 0 <= k < |p| ==> p[k] != 'v' && InClass(ArgChar, p[k])
    ensures AllIn(ArgChar, p) && 'v' !in p
  {
  }

  /** "Test Youtube": whatever the arguments, every `&key=value` pair of them reaches `src`; the player is 420 by 315. */
  lemma YoutubeDefaults(args: string)
    ensures Embed(Youtube, map["youtubeargs" := args], Defaults())
         == Success(Iframe("http://www.youtube.com/v/" + args, "420", "315"))
  {
    YoutubeSize();
    YoutubeFormsAgree(map["youtubeargs" := args], Defaults());
  }

  /** "Test Youtube with argument": the two supplied options give a 200 by 100 player with the same `src`. */
  lemma YoutubeWithArguments(args: string)
    ensures var cfg := Override(Defaults(), [("youtube_width", "200"), ("youtube_height", "100")]);
      && cfg.Success? && Complete(cfg.value)
      && Embed(Youtube, map["youtubeargs" := args], cfg.value)
      == Success(Iframe("http://www.youtube.com/v/" + args, "200", "100"))
  {
    var t := Defaults();
    OverrideTwo(t, "youtube_width", "200", "youtube_height", "100");
    YoutubeFormsAgree(map["youtubeargs" := args], Override(t, [("youtube_width", "200"), ("youtube_height", "100")]).value);
  }

  // ------------------------------------------------------------------- links

  /** A URL right after `(` or `"` is never where a match starts, for any pattern at any attempt. */
  lemma QuotedUrlSkipped(text: string, u: nat)
    requires 0 < u <= |text| && (text[u - 1] == '(' || text[u - 1] == '"')
    ensures forall svc: Service, pos: nat :: pos <= |text| && Scan(svc, text, pos).Some? ==> Scan(svc, text, pos).value.url != u
  {
  }

  /**
   * "Test Markdown Link" and "Test Youtube Link": a URL written as the target of
   * `[text](url)` is not where any pattern's match starts.
   */
  lemma MarkdownLinkLeftAlone(title: string, url: string, after: string)
    ensures var text := "[" + title + "](" + url + after;
      forall svc: Service, pos: nat :: pos <= |text| && Scan(svc, text, pos).Some? ==> Scan(svc, text, pos).value.url != |title| + 3
  {
    var text := "[" + title + "](" + url + after;
    assert text[|title| + 2] == '(';
    QuotedUrlSkipped(text, |title| + 3);
  }

  /**
   * "Test HTML Link" and "Test HTML Youtube Link": a URL written as a quoted
   * `href` value is not where any pattern's match starts.
   */
  lemma HtmlLinkLeftAlone(before: string, url: string, after: string)
    ensures var text := before + "<a href=\"" + url + after;
      forall svc: Service, pos: nat :: pos <= |text| && Scan(svc, text, pos).Some? ==> Scan(svc, text, pos).value.url != |before| + 9
  {
    var text := before + "<a href=\"" + url + after;
    assert text[|before| + 8] == '"';
    QuotedUrlSkipped(text, |before| + 9);
  }
}
