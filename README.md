# Python-Markdown video extension, modelled in Dafny

`mdx_video.py` is a Python-Markdown extension. It finds bare video URLs in
Markdown text and replaces each with an embedded player element. This project
models its core:

- **`markup.dfy`** holds the element tree. A `Fragment` value has a tag, an
  insertion-ordered attribute dictionary and ordered children. `Element` is the
  mutable node whose `Set` replaces a present key or appends a new one, and
  whose `Append` adds a child at the end.
- **`builders.dfy`** holds `iframe_object` and `flash_object`. Each is an
  imperative method that builds an `Element` step by step. It is proved equal
  to a specification function (`Iframe`, `Flash`), and the shape of that
  function is proved as lemmas.
- **`scanner.dfy`** holds the nine regular expressions. Each is a hand-written
  scanner that starts at a text position and returns the named groups and the
  end of the match, or nothing.
  - `Scan` adds the leading context `([^("]|^)`. Youtube's context is
    `([^("']|^)`.
  - `Search` is the leftmost match of one pattern.
  - `Recognize` is the first pattern, in registration order, that matches at
    a position.
  - Unescaped dots match any character. Dailymotion's `[^_]+` crosses
    whitespace. The greedy `\S*` before a literal takes the last place where
    that literal matches (`LastStop`). `youtu.be/(?P<youtubeargs>.*)` runs to
    the end of the text.
- **`config.dfy`** holds the 14-entry option table, `setConfig` on one key,
  and the override loop. Both the loop as a fold (`Override`) and the
  `VideoExtension` object whose `Configure` method mutates its table are
  modelled.
- **`handlers.dfy`** holds the nine `handleMatch` methods. Each reads its own
  two size options, formats the video URL and calls a builder.
  - `str.format` is modelled with its failure when there are too few
    arguments.
  - `Embed` is the specification of what each handler returns.
  - `HandleMatch` and `ExpandAt` tie recognition to building.
- **`captures.dfy`** states, for every pattern, what it captures on every
  input of the shape it accepts: the host is passed with its pieces placed at
  known positions, and the lemma gives the named groups and the end of the
  match. Greedy `\S*` runs are pinned with `LastStopIs`.
- **`doctests.dfy`** states the module's live doctests as lemmas: the URLs
  recognized through the registered patterns, the groups captured, and the
  elements built with the default and with overridden sizes.

Two behaviours of the code as written are modelled as they are. The commented-out
doctests at mdx_video.py:45-47 and mdx_video.py:85-87 expect otherwise:

- **Gametrailers `src` is relative.** The URL passes through `.split('/')[-1]`
  (mdx_video.py:204-205), so `src` is the relative `remote_wrap.php?mid=<id>`.
- **Yahoo always fails.** `"id={}&vid={}".format((a, b))` (mdx_video.py:254-255)
  gives one tuple to two slots. The formatting raises, so Yahoo's handler yields
  a failure and never an element.

String values stand in for the option values: `str()` of a string is the
string itself. The unknown-key failure of `setConfig` is modelled as a
`Failure(UnknownOption(key))` result.

## Model

| member | source | states |
|---|---|---|
| `Markup.SetAttrEffect` | mdx_video.py:288-294 | `set` gives the key the new value and leaves every other key alone. The key order stays, and a new key is appended. Well-formedness is kept. |
| `Markup.SetAttrCommute` | mdx_video.py:266 | Setting a key, then a different present key, is the same as doing the two in the other order. |
| `Markup.Element.constructor` | mdx_video.py:287 | `etree.Element(tag)` has the tag, no attributes and no children. |
| `Markup.Element.Set` | mdx_video.py:288 | The node's attributes become `SetAttr` of the old ones. Tag and children are unchanged. |
| `Markup.Element.Append` | mdx_video.py:305 | The child's value is appended after the old children. Tag and attributes are unchanged. |
| `Builders.IframeShape` | mdx_video.py:286-295 | The iframe has tag `iframe` and no children. Its attributes are exactly width, height, src, frameborder="0" and the three allow-fullscreen flags set to "true", in that order. |
| `Builders.IframeWellFormed` | mdx_video.py:286-295 | The iframe's seven attribute keys are distinct and all have values. |
| `Builders.FlashShape` | mdx_video.py:298-310 | The object has tag `object`, only width and height, and exactly two childless children: `param{name=movie, value=url}`, then `param{name=allowfullscreen, value=true}`. |
| `Builders.IframeResize` | mdx_video.py:288-289 | Setting width and height again gives the iframe of the new size with the same `src`. |
| `Builders.FlashResize` | mdx_video.py:300-301 | Setting width and height again gives the object of the new size, with the same children. |
| `Builders.IframeObject` | mdx_video.py:286-295 | The eight imperative steps build a fresh node whose value is `Iframe(url, width, height)`. |
| `Builders.NewParam` | mdx_video.py:302-304 | A fresh `param` node with `name`, then `value`. |
| `Builders.FlashObject` | mdx_video.py:298-310 | The imperative steps, two appends included, build a fresh node whose value is `Flash(url, width, height)`. |
| `Config.Defaults` | mdx_video.py:134-149 | The default table has exactly the 14 option names as keys. |
| `Config.SetConfig` | mdx_video.py:154 | An unknown key fails and names the key. A known key takes the value and keeps its description, and every other entry stays. |
| `Config.Supplied` | mdx_video.py:152-154 | None exactly when no option names the key. Otherwise the value is that of an occurrence of the key after which no option names it again: the last one, which is the one the `for` loop leaves in the table. |
| `Config.OverrideSucceedsIff` | mdx_video.py:152-154 | The override loop succeeds exactly when every supplied key is a known option. |
| `Config.OverrideReportsFirstUnknown` | mdx_video.py:152-154 | A failing loop reports the first unknown key, and every key before it is known. |
| `Config.OverrideFailureStays` | mdx_video.py:152-154 | Once the loop has failed, later options do not change the outcome. |
| `Config.OverrideKeepsOptions` | mdx_video.py:152-154 | A successful loop keeps the same option names and every description. |
| `Config.OverrideValues` | mdx_video.py:152-154 | After a successful loop, each option holds the last value supplied for it, or its old value if none was supplied. |
| `Config.VideoExtension.constructor` | mdx_video.py:133-149 | A new extension holds the default table. |
| `Config.VideoExtension.SetOption` | mdx_video.py:154 | One `setConfig` call. On success the table becomes `SetConfig` of the old one. On failure it reports the unknown key and leaves the table unchanged. The option names stay, and a valid table stays valid. |
| `Config.VideoExtension.Configure` | mdx_video.py:152-154 | The `for` loop succeeds exactly when the fold `Override` does. The new table is the fold's, and a failure is the fold's error. The option names stay, and a valid table stays valid. |
| `Config.NewVideoExtension` | mdx_video.py:133-154 | `VideoExtension(**configs)` is built exactly when the override of the defaults succeeds, and then holds that table. |
| `Scanner.RunSpec` | mdx_video.py:165-191 | `Run` is a maximal run of a character class: every character in it belongs to the class, and the next one, if any, does not. |
| `Scanner.LastStop` | mdx_video.py:174 | The greedy `\S*` backtracks to a position in range where the following literal matches. |
| `Scanner.LastStopSpec` | mdx_video.py:174 | That position is the last one: no later position in range matches, and None means no position in range does. |
| `Scanner.ScanDailymotion` | mdx_video.py:165 | The host part `www\.dailymotion\.com/video/([^_]+)_\S+`. A match ends after the host position, inside the text, and the host position carries this pattern's signature characters. |
| `Scanner.ScanGametrailers` | mdx_video.py:168 | `www.gametrailers.com/video/[a-z0-9-]+/(\d+)`, with its dots unescaped. A match ends after the host position, inside the text, and the host position carries this pattern's signature characters. |
| `Scanner.ScanMetacafe` | mdx_video.py:171 | `www\.metacafe\.com/watch/([-\w]+)/\S+`. A match ends after the host position, inside the text, and the host position carries this pattern's signature characters. |
| `Scanner.ScanVeoh` | mdx_video.py:174 | `www\.veoh\.com/\S*`, then `#watch%3D` or `watch/`, then the `\w+` id: the greedy run backtracks to the last such stop. A match ends after the host position, inside the text, and the host position carries this pattern's signature characters. |
| `Scanner.ScanVimeo` | mdx_video.py:177 | `www.` or nothing, then `vimeo\.com/(\d+)\S*`. The `www.` branch is tried first, and its dot is unescaped. A match ends after the host position, inside the text, and the host position carries this pattern's signature characters. |
| `Scanner.ScanYahoo` | mdx_video.py:180 | `video\.yahoo\.com/watch/(\d+)/(\d+)`. A match ends after the host position, inside the text, and the host position carries this pattern's signature characters. |
| `Scanner.ScanYahooScreen` | mdx_video.py:183 | `screen.yahoo.com/([-\w/]+).html`: the last `.html`-shaped stop after the greedy path. A match ends after the host position, inside the text, and the host position carries this pattern's signature characters. |
| `Scanner.ScanYoutube` | mdx_video.py:188 | `www\.youtube\.com/`, then `watch\?\S*v=` or `v/`, then `([A-Za-z0-9_&=-]+)\S*`. `\S*v=` takes the last `v=` that is followed by an argument character. A match ends after the host position, inside the text, and the host position carries this pattern's signature characters. |
| `Scanner.ScanYoutubeShort` | mdx_video.py:191 | `youtu\.be/(.*)\S*`: the group takes the rest of the text, whitespace included. A match ends after the host position, inside the text, and the host position carries this pattern's signature characters. |
| `Scanner.HostGroupsShape` | mdx_video.py:165-191 | Every captured group is non-empty and made of its pattern's character class. Dailymotion's id has no `_`, and Vimeo's id is digits only. The short youtube form's `.*` group may be empty. |
| `Scanner.ScanHost` | mdx_video.py:163-191 | A host match captures exactly its pattern's group names and carries that pattern's host signature. |
| `Scanner.SchemeEnd` | mdx_video.py:165-191 | `https?://` matches exactly when `https://` or `http://` is at the position. `https://` gives the position 8 further on, otherwise `http://` gives the position 7 further on. |
| `Scanner.UrlAt` | mdx_video.py:165-191 | A URL match is a scheme followed by that host pattern. It starts with `http` and captures exactly the pattern's groups. |
| `Scanner.Scan` | mdx_video.py:165-191 | A match starts its URL right after one accepted context character, or at the start of the text with an empty group 1. The character before the URL is never `(` or `"`, nor `'` for the youtube patterns. |
| `Scanner.Search` | mdx_video.py:156-160 | The leftmost position where the pattern matches, and no match at any earlier position. None means no position matches. |
| `Scanner.OneHostPattern` | mdx_video.py:163-191 | No two patterns accept a host at the same place. |
| `Scanner.OneRecognizerPerPosition` | mdx_video.py:163-191 | At any text position at most one of the nine patterns matches. |
| `Scanner.FirstScan` | mdx_video.py:163-191 | The first service in the given order that matches at the position. None means none of them does. |
| `Scanner.RecognizeFindsTheMatch` | mdx_video.py:163-191 | With registration order dailymotion … youtubeshort, whichever pattern matches at a position is the one recognized there, with its own match. |
| `Scanner.RefusedLeadNeverMatches` | mdx_video.py:165-191 | No pattern matches from a `(` or `"` context character, nor from `'` for the youtube patterns. |
| `Captures.DailymotionHostOf` | mdx_video.py:165 | For every id without `_` and every non-empty non-space slug after the `_`, the host part captures exactly that id, and the match ends with the slug. |
| `Captures.GametrailersCapture` | mdx_video.py:168 | A host the dotted pattern accepts, a `[a-z0-9-]+` slug, `/` and digits that a non-digit or the end closes: the id is those digits, and the match ends after them. |
| `Captures.MetacafeHostOf` | mdx_video.py:171 | For every `[-\w]+` id followed by `/` and a non-empty non-space rest, the id is captured and the match runs to the end of the rest. |
| `Captures.VeohCapture` | mdx_video.py:174 | A non-space prefix, the marker `#watch%3D` or `watch/`, then a `\w+` id that whitespace or the end closes: the id is captured whole and the match ends after it. |
| `Captures.VimeoHostOf` | mdx_video.py:177 | The bare `vimeo.com/` host, then digits and a non-space rest that does not start with a digit: the digits are the id and the rest is consumed. |
| `Captures.VimeoWwwCapture` | mdx_video.py:177 | The same for the `www.` branch, whose dot matches any character. |
| `Captures.YahooCapture` | mdx_video.py:180 | Two digit runs separated by `/`, the second closed by a non-digit or the end: they are `yahoovid` and `yahooid`. |
| `Captures.YahooScreenCapture` | mdx_video.py:183 | A `[-\w/]+` path, then one character outside that class (the unescaped dot of `.html`) and `html`: the path is captured and the match ends after `html`. |
| `Captures.YoutubeWatchArgsAt` | mdx_video.py:188 | After `watch?`, a non-space prefix, `v=` and arguments that end the non-space run and hold no `v=` followed by another argument character, the arguments start right after that `v=`. Ids with a `v`, such as `R2fwHjLvvk4`, are covered. |
| `Captures.YoutubeWatchCapture` | mdx_video.py:188 | In that case the whole argument list is captured and the match ends with it. |
| `Captures.YoutubeVCapture` | mdx_video.py:188 | After `v/`, the `[A-Za-z0-9_&=-]+` arguments are captured and the non-space rest after them is consumed. |
| `Captures.YoutubeShortCapture` | mdx_video.py:191 | After `youtu.be/` the group is the whole rest of the text, whatever it holds, and the match ends with the text. |
| `Handlers.Format` | mdx_video.py:196 | `str.format` with positional `{}` slots succeeds exactly when there are at least as many arguments as slots. Otherwise it fails with `IndexError`. |
| `Handlers.FormatAround` | mdx_video.py:196 | Formatting `prefix{}suffix` with one argument gives `prefix + arg + suffix`. |
| `Handlers.LastSegment` | mdx_video.py:205 | `split('/')[-1]`: the longest suffix without `/`, preceded by a `/` whenever it is not the whole string. |
| `Handlers.LastSegmentAfterSlash` | mdx_video.py:205 | After the last `/`, the rest is the last segment. |
| `Handlers.GametrailersUrlIsRelative` | mdx_video.py:204-205 | For an id without `/`, the Gametrailers URL is the relative `remote_wrap.php?mid=<id>`. |
| `Handlers.WidthKey` | mdx_video.py:197-282 | Each recognizer's width option is one of the 14 table options. |
| `Handlers.HeightKey` | mdx_video.py:198-283 | Each recognizer's height option is a table option distinct from its width option. |
| `Handlers.YahooAlwaysFails` | mdx_video.py:254-255 | Yahoo's build fails for every group and size: one argument for two slots. |
| `Handlers.VeohShape` | mdx_video.py:221-235 | Veoh's element is `flash_object`'s attributes and its two params unchanged, plus a third child, the `embed`. |
| `Handlers.VeohEmbedShape` | mdx_video.py:227-234 | The `embed` has the six attributes src, type, allowfullscreen, width, height and name in order, and no children. Its `src` equals the movie param's value, and its width and height equal the object's. |
| `Handlers.YahooScreenShape` | mdx_video.py:260-267 | YahooScreen's element keeps the seven iframe attributes unchanged and adds `scrolling="no"` last. |
| `Handlers.YoutubeFormsAgree` | mdx_video.py:270-283 | Both youtube forms build `iframe_object("http://www.youtube.com/v/" + args, youtube_width, youtube_height)`, with `args` verbatim. |
| `Handlers.OwnOptionsOnly` | mdx_video.py:197-283 | Two tables that agree on a recognizer's own width and height build the same element. |
| `Handlers.ResizeChangesOnlyDimensions` | mdx_video.py:197-283 | For every buildable service, a different size changes only the width and height attributes. `src`, the other attributes and the attribute order stay. An `object`'s two params stay, and Veoh's `embed` child changes only its own width and height. |
| `Handlers.ResizeIframe` | mdx_video.py:194-283 | The same for the iframe services. |
| `Handlers.ResizeFlash` | mdx_video.py:202-235 | The same for the flash services: the two params stay, and the Veoh `embed` gets the new width and height with everything else kept. |
| `Handlers.VeohEmbedResize` | mdx_video.py:227-233 | Veoh's `embed` built at another size is the old one with only `width` and `height` set to the new values. |
| `Handlers.ResizeYahooScreen` | mdx_video.py:260-267 | The same for YahooScreen: its `scrolling` attribute stays. |
| `Handlers.ScanGroupsShape` | mdx_video.py:165-191 | Every group a full match captures is non-empty and has its pattern's character class, except that the short youtube form's group may be empty. |
| `Handlers.DailymotionSource` | mdx_video.py:165-199 | A recognized Dailymotion id is non-empty and has no `_`. `src` is the embed template with that id inserted. |
| `Handlers.VimeoSource` | mdx_video.py:177-243 | A recognized Vimeo id is digits only, so no `?query` reaches `src`. `src` is the player template with that id inserted. |
| `Handlers.GametrailersSource` | mdx_video.py:168-208 | A recognized Gametrailers id gives a movie param whose value is `remote_wrap.php?mid=<id>`. |
| `Handlers.HandleDailymotion` | mdx_video.py:194-199 | The handler builds a fresh element equal to `Embed` for this service. |
| `Handlers.HandleGametrailers` | mdx_video.py:202-208 | The same, the `split('/')[-1]` included. |
| `Handlers.HandleMetacafe` | mdx_video.py:211-218 | The same for Metacafe's `embed/<id>/`. |
| `Handlers.HandleVeoh` | mdx_video.py:221-235 | The flash object with the built `embed` node appended, equal to `Embed`. |
| `Handlers.NewVeohEmbed` | mdx_video.py:227-233 | The six `set` calls build a fresh node whose value is the `embed` element. |
| `Handlers.HandleVimeo` | mdx_video.py:238-243 | The handler builds a fresh element equal to `Embed` for Vimeo. |
| `Handlers.HandleYahoo` | mdx_video.py:246-257 | The handler always fails, as `Embed` does for Yahoo. |
| `Handlers.HandleYahooScreen` | mdx_video.py:260-267 | The iframe with `scrolling="no"` set afterwards, equal to `Embed`. |
| `Handlers.HandleYoutube` | mdx_video.py:270-275 | The handler builds a fresh element equal to `Embed` for Youtube. |
| `Handlers.HandleYoutubeShort` | mdx_video.py:278-283 | The handler builds a fresh element equal to `Embed` for the short form. |
| `Handlers.HandleMatch` | mdx_video.py:194-283 | Dispatch to the recognizer's `handleMatch`. The outcome is `Embed` of the recognizer, its groups and the extension's table. |
| `Handlers.ExpandAt` | mdx_video.py:156-283 | Nothing happens exactly when no registered pattern matches at the position. Otherwise the first pattern that matches builds `Embed` of its captured groups. |
| `Doctests.MarkdownLinkLeftAlone` | mdx_video.py:25-27 | The URL target of `[title](url)` is never where a match starts. |
| `Doctests.HtmlLinkLeftAlone` | mdx_video.py:31-33 | The URL inside `<a href="url">` is never where a match starts. |
| `Doctests.QuotedUrlSkipped` | mdx_video.py:111-120 | A URL right after `(` or `"` is never where a match starts, for any pattern at any position. |
| `Doctests.DailymotionMatch` | mdx_video.py:38 | The doctest URL is recognized as Dailymotion from the start of the text, with id `x3b3ec0`. |
| `Doctests.DailymotionDefaults` | mdx_video.py:38-40 | Its element is the 480 by 270 iframe for `…/embed/video/x3b3ec0`. |
| `Doctests.MetacafeMatch` | mdx_video.py:52 | The doctest URL is recognized as Metacafe with id `11419683`. |
| `Doctests.MetacafeDefaults` | mdx_video.py:52-54 | Its element is the 440 by 248 iframe for `…/embed/11419683/`. |
| `Doctests.MetacafeWithArguments` | mdx_video.py:59-60 | With `metacafe_width=500` and `metacafe_height=425` supplied, the element is 500 by 425 with the same `src`. |
| `Doctests.MetacafeResizedBy` | mdx_video.py:57-60 | From any complete table, supplying both metacafe options resizes the element and keeps `src`. |
| `Doctests.VeohMatch` | mdx_video.py:65 | The doctest URL is recognized as Veoh from the start of the text, with id `v95981404eQdfjw2E`, and the match covers the whole URL. |
| `Doctests.VeohDefaults` | mdx_video.py:65-67 | Veoh's element for `v95981404eQdfjw2E` is the 410 by 341 object with the movie param and the appended `embed`, both carrying the player URL. |
| `Doctests.VimeoWwwMatch` | mdx_video.py:72 | The `www.vimeo.com` doctest URL is recognized as Vimeo through the `www.` branch, with id `1496152`, and the match covers the whole URL. |
| `Doctests.VimeoDefaults` | mdx_video.py:72-74 | Vimeo's element for `1496152` is the 500 by 321 iframe for `https://player.vimeo.com/video/1496152`. |
| `Doctests.VimeoWithQuery` | mdx_video.py:78 | `http://vimeo.com/1496152?test=test` is matched whole, with id `1496152`: the query never reaches the group. |
| `Doctests.VimeoWithQueryRecognized` | mdx_video.py:78-80 | Through the registered patterns, the same URL is recognized as Vimeo. |
| `Doctests.YahooScreenMatch` | mdx_video.py:91 | The `https://` doctest URL is recognized as YahooScreen, with the path `popular/…-231207869` as id, and the match ends after `.html`. |
| `Doctests.YahooScreenDefaults` | mdx_video.py:91-93 | YahooScreen's element is the 640 by 360 iframe for `<id>.html?format=embed` with `scrolling="no"` appended. |
| `Doctests.YoutubeMatch` | mdx_video.py:98 | The doctest URL is recognized as Youtube, and the whole `u1mA-0w8XPo&hd=1…&index=1` argument list is captured. |
| `Doctests.YoutubeSampleMatch` | mdx_video.py:184 | The sample address beside the Youtube pattern is recognized as Youtube, and the whole `R2fwHjLvvk4&feature=…-HM` argument run is captured, although the id holds `v`s. |
| `Doctests.YoutubeDefaults` | mdx_video.py:98-100 | Every `&key=value` pair of the args reaches `src` verbatim, in a 420 by 315 player. |
| `Doctests.YoutubeWithArguments` | mdx_video.py:105-106 | With `youtube_width=200` and `youtube_height=100` supplied, the player is 200 by 100 with the same `src`. |
| `Doctests.OverrideTwo` | mdx_video.py:152-154 | Two different known options supplied in turn both take the values given, and every other option is kept. |

## Left out

- The host pipeline is left out, because it is Python-Markdown library code that is not part of this model. This covers:
  - the `Pattern` wrapping and its compile flags;
  - `md.inlinePatterns.add(..., "<reference")` (mdx_video.py:160) and the position it gives the patterns among the library's own patterns;
  - code spans and backslash escapes, which earlier library patterns handle (mdx_video.py:19-21);
  - how the treeprocessor splices the element into the text;
  - that the library applies the patterns one after another, each over the whole text at its own leftmost match. A greedy group of an earlier pattern, such as Dailymotion's `[^_]+`, can therefore swallow a later URL that another pattern would have matched, so across positions the registration order can decide which pattern handles a URL.

  `Search` and `ExpandAt` model one pattern's leftmost match and the registered order at one position.
- Serialization to HTML is left out: the attribute sorting and the `&` to `&amp;` escaping in the doctests' expected output belong to the library's serializer. The doctests are stated on the element tree.
- `\d` and `\w` are modelled on ASCII only. Python's `str` patterns also accept Unicode digits and letters. `\s` follows Python's `str.isspace` on the characters listed in `Scanner.IsSpace`.
- Non-string option values and `str()` of them are left out. Option values are strings. `setConfig`'s own conversions (booleans) are library code that is not part of this model: an override replaces the value slot.
- `Markup.Element.Append` stores the child's value at the time of the call. The source never changes a child after appending it, so aliasing a child node is not modelled.
- Metacafe's `if m.group(1) == '\\': pass` (mdx_video.py:213-214) is not modelled, because it changes nothing.
- The `etree` import fallback (mdx_video.py:124-127), `makeExtension` and the `__main__` doctest runner (mdx_video.py:313-318) are not modelled, because they are plumbing.
- The commented-out doctests for escaping, Gametrailers and Yahoo (mdx_video.py:16-18, 45-47, 85-87) are not stated, because they are not live expectations. The Gametrailers and Yahoo ones contradict the code.
- Yahoo's `param.set('value', ...)` and `obj.append(param)` (mdx_video.py:254-256) are not reached, because the `format` in the first of them raises. `Handlers.HandleYahoo` models the lines before it (mdx_video.py:247-253) and stops there.
- `Handlers.YahooPair`: the text of Python's tuple `str()` is approximated. Nothing depends on it, because formatting fails on the second slot whatever the first one holds.
- The doctest texts in `doctests.dfy` are written as concatenations of the pieces the patterns read. This is the same string as the doctest's, written so the verifier can decompose it.
- Scanner.ScanDailymotion: its own contract states only where a match ends and that the host's signature characters are present. What it captures is stated, for every input of the shape the pattern accepts, by Captures.DailymotionHostOf, and the groups' character classes by Scanner.HostGroupsShape.
- Scanner.ScanGametrailers: its own contract states only where a match ends and that the host's signature characters are present. What it captures is stated, for every input of the shape the pattern accepts, by Captures.GametrailersCapture, and the groups' character classes by Scanner.HostGroupsShape.
- Scanner.ScanMetacafe: its own contract states only where a match ends and that the host's signature characters are present. What it captures is stated, for every input of the shape the pattern accepts, by Captures.MetacafeHostOf, and the groups' character classes by Scanner.HostGroupsShape.
- Scanner.ScanVeoh: its own contract states only where a match ends and that the host's signature characters are present. What it captures is stated, for every input of the shape the pattern accepts, by Captures.VeohCapture, and the groups' character classes by Scanner.HostGroupsShape.
- Scanner.ScanVimeo: its own contract states only where a match ends and that the host's signature characters are present. What it captures is stated, for every input of the shape the pattern accepts, by Captures.VimeoHostOf and Captures.VimeoWwwCapture, and the groups' character classes by Scanner.HostGroupsShape.
- Scanner.ScanYahoo: its own contract states only where a match ends and that the host's signature characters are present. What it captures is stated, for every input of the shape the pattern accepts, by Captures.YahooCapture, and the groups' character classes by Scanner.HostGroupsShape.
- Scanner.ScanYahooScreen: its own contract states only where a match ends and that the host's signature characters are present. What it captures is stated, for every input of the shape the pattern accepts, by Captures.YahooScreenCapture, and the groups' character classes by Scanner.HostGroupsShape.
- Scanner.ScanYoutube: its own contract states only where a match ends and that the host's signature characters are present. What it captures is stated, for every input of the shape the pattern accepts, by Captures.YoutubeWatchCapture and Captures.YoutubeVCapture, and the groups' character classes by Scanner.HostGroupsShape.
- Scanner.ScanYoutubeShort: its own contract states only where a match ends and that the host's signature characters are present. What it captures is stated, for every input of the shape the pattern accepts, by Captures.YoutubeShortCapture, and the groups' character classes by Scanner.HostGroupsShape.
- Captures.YoutubeWatchCapture: the arguments are required to hold no `v=` followed by another argument character (`Captures.NoInnerStop`). That is exactly what makes the `v=` before them the last stop. When the arguments hold such a `v=` themselves, the scanner takes that later one, and this lemma does not cover that case.
