/**
 * Hand-written scanners for the nine URL patterns of `extendMarkdown`.  Each
 * one starts at a given position of the text and either declines or returns
 * the leading context character, where the URL starts, the named groups and
 * where the match ends.  The host compiles every pattern with DOTALL, so an
 * unescaped `.` matches any character, newlines included.
 */
module Scanner {
  import opened Wrappers

  datatype Service =
    Dailymotion | Gametrailers | Metacafe | Veoh | Vimeo | Yahoo | YahooScreen | Youtube | YoutubeShort

  /** The order in which `extendMarkdown` registers the recognizers. */
  const Registry: seq<Service> :=
    [Dailymotion, Gametrailers, Metacafe, Veoh, Vimeo, Yahoo, YahooScreen, Youtube, YoutubeShort]

  // ---------------------------------------------------------------- characters

  /** `\s`: the characters Python counts as whitespace. */
  predicate IsSpace(c: char)
  {
    || ('\t' <= c <= '\r')
    || ('\U{1C}' <= c <= ' ')
    || c == '\U{85}' || c == '\U{A0}' || c == '\U{1680}'
    || ('\U{2000}' <= c <= '\U{200A}')
    || c == '\U{2028}' || c == '\U{2029}' || c == '\U{202F}' || c == '\U{205F}' || c == '\U{3000}'
  }

  /** `\d`, on ASCII digits. */
  predicate IsDigit(c: char) { '0' <= c <= '9' }

  /** `\w`, on ASCII letters, digits and the underscore. */
  predicate IsWord(c: char) { 'a' <= c <= 'z' || 'A' <= c <= 'Z' || IsDigit(c) || c == '_' }

  /** The character classes the patterns repeat. */
  datatype CharClass =
    | NonSpace       // \S
    | Digit          // \d
    | Word           // \w
    | WordOrDash     // [-\w]
    | PathChar       // [-\w/]
    | SlugChar       // [a-z0-9-]
    | ArgChar        // [A-Za-z0-9_&=-]
    | NotUnderscore  // [^_]

  predicate InClass(cls: CharClass, c: char)
  {
    match cls
    case NonSpace => !IsSpace(c)
    case Digit => IsDigit(c)
    case Word => IsWord(c)
    case WordOrDash => c == '-' || IsWord(c)
    case PathChar => c == '-' || c == '/' || IsWord(c)
    case SlugChar => 'a' <= c <= 'z' || IsDigit(c) || c == '-'
    case ArgChar => 'a' <= c <= 'z' || 'A' <= c <= 'Z' || IsDigit(c) || c == '_' || c == '&' || c == '=' || c == '-'
    case NotUnderscore => c != '_'
  }

  /** The length of the longest run of `cls` characters starting at `i`: what a greedy `cls*` takes. */
  function Run(text: string, i: nat, cls: CharClass): (n: nat)
    requires i <= |text|
    ensures i + n <= |text|
    decreases |text| - i
  {
    if i < |text| && InClass(cls, text[i]) then 1 + Run(text, i + 1, cls) else 0
  }

  /** A run holds only `cls` characters and stops at the end of the text or at the first other one. */
  lemma {:induction false} RunSpec(text: string, i: nat, cls: CharClass)
    requires i <= |text|
    ensures forall k :: i <= k < i + Run(text, i, cls) ==> InClass(cls, text[k])
    ensures i + Run(text, i, cls) == |text| || !InClass(cls, text[i + Run(text, i, cls)])
    decreases |text| - i
  {
    if i < |text| && InClass(cls, text[i]) {
      RunSpec(text, i + 1, cls);
    }
  }

  /** Every character of `s` is in the class `cls`. */
  predicate AllIn(cls: CharClass, s: string)
  {
    forall k :: 0 <= k < |s| ==> InClass(cls, s[k])
  }

  /** The literal `lit` (every character escaped) occurs at `i`. */
  predicate LitAt(text: string, i: nat, lit: string)
  {
    i + |lit| <= |text| && text[i..i + |lit|] == lit
  }

  /** The pattern `pat` occurs at `i`, where each unescaped `.` of `pat` matches any character. */
  predicate PatAt(text: string, i: nat, pat: string)
  {
    i + |pat| <= |text| && forall k :: 0 <= k < |pat| ==> pat[k] == '.' || text[i + k] == pat[k]
  }

  /** Each character of a literal occurring at `i`. */
  lemma LitChars(text: string, i: nat, lit: string)
    requires LitAt(text, i, lit)
    ensures forall k :: 0 <= k < |lit| ==> text[i + k] == lit[k]
  {
    forall k | 0 <= k < |lit|
      ensures text[i + k] == lit[k]
    {
      assert text[i..i + |lit|][k] == text[i + k];
    }
  }

  /** The first character of a piece occurring at `i`. */
  lemma LitFirst(text: string, i: nat, s: string)
    requires LitAt(text, i, s) && s != []
    ensures i < |text| && text[i] == s[0]
  {
    assert text[i..i + |s|][0] == text[i];
  }

  /** Four characters of a host that tell the patterns apart. */
  type Sig = (char, char, char, char)

  function Signature(text: string, h: nat): Sig
    requires h + 6 <= |text|
  {
    (text[h], text[h + 2], text[h + 4], text[h + 5])
  }

  /** The signatures of the hosts each pattern accepts (vimeo has two host branches). */
  function Signatures(svc: Service): set<Sig>
  {
    match svc
    case Dailymotion => {('w', 'w', 'd', 'a')}
    case Gametrailers => {('w', 'w', 'g', 'a')}
    case Metacafe => {('w', 'w', 'm', 'e')}
    case Veoh => {('w', 'w', 'v', 'e')}
    case Vimeo => {('w', 'w', 'v', 'i'), ('v', 'm', 'o', '.')}
    case Yahoo => {('v', 'd', 'o', '.')}
    case YahooScreen => {('s', 'r', 'e', 'n')}
    case Youtube => {('w', 'w', 'y', 'o')}
    case YoutubeShort => {('y', 'u', 'u', '.')}
  }

  /** The one pattern whose hosts have signature `sig`, if any. */
  function Owner(sig: Sig): Option<Service>
  {
    if sig == ('w', 'w', 'd', 'a') then Some(Dailymotion)
    else if sig == ('w', 'w', 'g', 'a') then Some(Gametrailers)
    else if sig == ('w', 'w', 'm', 'e') then Some(Metacafe)
    else if sig == ('w', 'w', 'v', 'e') then Some(Veoh)
    else if sig == ('w', 'w', 'v', 'i') || sig == ('v', 'm', 'o', '.') then Some(Vimeo)
    else if sig == ('v', 'd', 'o', '.') then Some(Yahoo)
    else if sig == ('s', 'r', 'e', 'n') then Some(YahooScreen)
    else if sig == ('w', 'w', 'y', 'o') then Some(Youtube)
    else if sig == ('y', 'u', 'u', '.') then Some(YoutubeShort)
    else None
  }

  /** No two patterns share a signature. */
  lemma SignatureOwner(svc: Service, sig: Sig)
    requires sig in Signatures(svc)
    ensures Owner(sig) == Some(svc)
  {
  }

  /** The signature of a host that starts with the pattern `pat`, dots unescaped. */
  lemma SignatureOfPattern(text: string, h: nat, pat: string)
    requires PatAt(text, h, pat) && 6 <= |pat|
    requires pat[0] != '.' && pat[2] != '.' && pat[4] != '.' && pat[5] != '.'
    ensures h + 6 <= |text| && Signature(text, h) == (pat[0], pat[2], pat[4], pat[5])
  {
  }

  /** The signature of a host that starts with the literal `lit`. */
  lemma SignatureOfLiteral(text: string, h: nat, lit: string)
    requires LitAt(text, h, lit) && 6 <= |lit|
    ensures h + 6 <= |text| && Signature(text, h) == (lit[0], lit[2], lit[4], lit[5])
  {
    LitChars(text, h, lit);
  }

  // ------------------------------------------------------ backtracking searches

  /** The three places where a greedy repetition has to give characters back. */
  datatype Stop =
    | VeohStop     // `\S*` before `(#watch%3D|watch/)\w`
    | YoutubeStop  // `\S*` before `v=[A-Za-z0-9_&=-]`
    | ScreenStop   // `[-\w/]+` before `.html`

  /** What must follow the repetition at position `j` for the rest of the pattern to match. */
  predicate StopsAt(stop: Stop, text: string, j: nat)
  {
    match stop
    case VeohStop =>
      || (LitAt(text, j, "#watch%3D") && j + 9 < |text| && IsWord(text[j + 9]))
      || (LitAt(text, j, "watch/") && j + 6 < |text| && IsWord(text[j + 6]))
    case YoutubeStop => LitAt(text, j, "v=") && j + 2 < |text| && InClass(ArgChar, text[j + 2])
    case ScreenStop => PatAt(text, j, ".html")
  }

  /**
   * The last position in `lo..hi` where the rest of the pattern matches: a greedy
   * repetition tries the longest run first and gives back one character at a time.
   */
  function LastStop(stop: Stop, text: string, lo: nat, hi: nat): (r: Option<nat>)
    ensures r.Some? ==> lo <= r.value <= hi && StopsAt(stop, text, r.value)
    decreases hi
  {
    if hi < lo then None
    else if StopsAt(stop, text, hi) then Some(hi)
    else if hi == lo then None
    else LastStop(stop, text, lo, hi - 1)
  }

  /** The stop found is the last one in `lo..hi`; when none is found there is none. */
  lemma {:induction false} LastStopSpec(stop: Stop, text: string, lo: nat, hi: nat)
    ensures LastStop(stop, text, lo, hi).Some? ==>
      forall j :: LastStop(stop, text, lo, hi).value < j <= hi ==> !StopsAt(stop, text, j)
    ensures LastStop(stop, text, lo, hi).None? ==> forall j :: lo <= j <= hi ==> !StopsAt(stop, text, j)
    decreases hi
  {
    if lo <= hi && !StopsAt(stop, text, hi) && hi != lo {
      LastStopSpec(stop, text, lo, hi - 1);
    }
  }

  // ------------------------------------------------------------- the patterns

  /** The named groups a match has, and where in the text the match ends. */
  datatype Capture = Capture(groups: map<string, string>, end: nat)

  /** The names of the groups each pattern captures. */
  function GroupNames(svc: Service): set<string>
  {
    match svc
    case Dailymotion => {"dailymotionid"}
    case Gametrailers => {"gametrailersid"}
    case Metacafe => {"metacafeid"}
    case Veoh => {"veohid"}
    case Vimeo => {"vimeoid"}
    case Yahoo => {"yahoovid", "yahooid"}
    case YahooScreen => {"yahooscreenid"}
    case Youtube => {"youtubeargs"}
    case YoutubeShort => {"youtubeargs"}
  }

  /** `www\.dailymotion\.com/video/(?P<dailymotionid>[^_]+)_\S+` */
  function ScanDailymotion(text: string, h: nat): (r: Option<Capture>)
    requires h <= |text|
    ensures r.Some? ==> h < r.value.end <= |text| && h + 6 <= |text| && Signature(text, h) == ('w', 'w', 'd', 'a')
  {
    var lit := "www.dailymotion.com/video/";
    if !LitAt(text, h, lit) then None
    else
      SignatureOfLiteral(text, h, lit);
      DailymotionTail(text, h + |lit|)
  }

  /** Dailymotion's pattern after the host: `[^_]+` up to a `_`, which `\S+` must follow. */
  function DailymotionTail(text: string, i: nat): (r: Option<Capture>)
    requires i <= |text|
    ensures r.Some? ==> i < r.value.end <= |text|
  {
    var n := Run(text, i, NotUnderscore);
    if n == 0 || i + n == |text| then None
    else
      var t := Run(text, i + n + 1, NonSpace);
      if t == 0 then None
      else Some(Capture(map["dailymotionid" := text[i..i + n]], i + n + 1 + t))
  }

  /** `www.gametrailers.com/video/[a-z0-9-]+/(?P<gametrailersid>\d+)`, dots unescaped */
  function ScanGametrailers(text: string, h: nat): (r: Option<Capture>)
    requires h <= |text|
    ensures r.Some? ==> h < r.value.end <= |text| && h + 6 <= |text| && Signature(text, h) == ('w', 'w', 'g', 'a')
  {
    var pat := "www.gametrailers.com/video/";
    if !PatAt(text, h, pat) then None
    else
      SignatureOfPattern(text, h, pat);
      GametrailersTail(text, h + |pat|)
  }

  /** Gametrailers' pattern after the host: a slug, `/`, and the digits of the id. */
  function GametrailersTail(text: string, i: nat): (r: Option<Capture>)
    requires i <= |text|
    ensures r.Some? ==> i < r.value.end <= |text|
  {
    var n := Run(text, i, SlugChar);
    if n == 0 || i + n == |text| || text[i + n] != '/' then None
    else
      var d := Run(text, i + n + 1, Digit);
      if d == 0 then None
      else Some(Capture(map["gametrailersid" := text[i + n + 1..i + n + 1 + d]], i + n + 1 + d))
  }

  /** `www\.metacafe\.com/watch/(?P<metacafeid>[-\w]+)/\S+` */
  function ScanMetacafe(text: string, h: nat): (r: Option<Capture>)
    requires h <= |text|
    ensures r.Some? ==> h < r.value.end <= |text| && h + 6 <= |text| && Signature(text, h) == ('w', 'w', 'm', 'e')
  {
    var lit := "www.metacafe.com/watch/";
    if !LitAt(text, h, lit) then None
    else
      SignatureOfLiteral(text, h, lit);
      MetacafeTail(text, h + |lit|)
  }

  /** Metacafe's pattern after the host: the `[-\w]+` id, `/`, and a non-empty `\S+`. */
  function MetacafeTail(text: string, i: nat): (r: Option<Capture>)
    requires i <= |text|
    ensures r.Some? ==> i < r.value.end <= |text|
  {
    var n := Run(text, i, WordOrDash);
    if n == 0 || i + n == |text| || text[i + n] != '/' then None
    else
      var t := Run(text, i + n + 1, NonSpace);
      if t == 0 then None
      else Some(Capture(map["metacafeid" := text[i..i + n]], i + n + 1 + t))
  }

  /** `www\.veoh\.com/\S*(#watch%3D|watch/)(?P<veohid>\w+)` */
  function ScanVeoh(text: string, h: nat): (r: Option<Capture>)
    requires h <= |text|
    ensures r.Some? ==> h < r.value.end <= |text| && h + 6 <= |text| && Signature(text, h) == ('w', 'w', 'v', 'e')
  {
    var lit := "www.veoh.com/";
    if !LitAt(text, h, lit) then None
    else
      SignatureOfLiteral(text, h, lit);
      VeohTail(text, h + |lit|)
  }

  /** `\S*(#watch%3D|watch/)` after the host, then the id: the last place the marker fits */
  function VeohTail(text: string, q: nat): (r: Option<Capture>)
    requires q <= |text|
    ensures r.Some? ==> q < r.value.end <= |text|
  {
    match LastStop(VeohStop, text, q, q + Run(text, q, NonSpace))
    case None => None
    case Some(j) => Some(VeohMarkTail(text, j))
  }

  /** `(#watch%3D|watch/)(?P<veohid>\w+)` at a stop `j`: the id follows whichever marker is there */
  function VeohMarkTail(text: string, j: nat): (c: Capture)
    requires StopsAt(VeohStop, text, j)
    ensures j < c.end <= |text|
  {
    var i := if LitAt(text, j, "#watch%3D") then j + 9 else j + 6;
    var n := Run(text, i, Word);
    Capture(map["veohid" := text[i..i + n]], i + n)
  }

  /** `(?P<vimeoid>\d+)\S*` after the host */
  function VimeoTail(text: string, i: nat): Option<Capture>
    requires i <= |text|
  {
    var d := Run(text, i, Digit);
    if d == 0 then None
    else Some(Capture(map["vimeoid" := text[i..i + d]], i + d + Run(text, i + d, NonSpace)))
  }

  /** `(www.|)vimeo\.com/(?P<vimeoid>\d+)\S*`: the `www.` branch first, its dot unescaped */
  function ScanVimeo(text: string, h: nat): (r: Option<Capture>)
    requires h <= |text|
    ensures r.Some? ==> h < r.value.end <= |text| && h + 6 <= |text| && Signature(text, h) in {('w', 'w', 'v', 'i'), ('v', 'm', 'o', '.')}
  {
    var first :=
      if PatAt(text, h, "www.") && LitAt(text, h + 4, "vimeo.com/") then
        LitChars(text, h + 4, "vimeo.com/");
        assert "www."[0] == 'w' && "www."[2] == 'w' && "vimeo.com/"[0] == 'v' && "vimeo.com/"[1] == 'i';
        assert text[h + 4 + 0] == 'v' && text[h + 4 + 1] == 'i';
        assert Signature(text, h) == ('w', 'w', 'v', 'i');
        VimeoTail(text, h + 14)
      else None;
    if first.Some? then first
    else if LitAt(text, h, "vimeo.com/") then
      SignatureOfLiteral(text, h, "vimeo.com/");
      VimeoTail(text, h + 10)
    else None
  }

  /** `video\.yahoo\.com/watch/(?P<yahoovid>\d+)/(?P<yahooid>\d+)` */
  function ScanYahoo(text: string, h: nat): (r: Option<Capture>)
    requires h <= |text|
    ensures r.Some? ==> h < r.value.end <= |text| && h + 6 <= |text| && Signature(text, h) == ('v', 'd', 'o', '.')
  {
    var lit := "video.yahoo.com/watch/";
    if !LitAt(text, h, lit) then None
    else
      SignatureOfLiteral(text, h, lit);
      YahooTail(text, h + |lit|)
  }

  /** Yahoo's pattern after the host: two digit runs separated by `/`. */
  function YahooTail(text: string, i: nat): (r: Option<Capture>)
    requires i <= |text|
    ensures r.Some? ==> i < r.value.end <= |text|
  {
    var d := Run(text, i, Digit);
    if d == 0 || i + d == |text| || text[i + d] != '/' then None
    else
      var e := Run(text, i + d + 1, Digit);
      if e == 0 then None
      else Some(Capture(map["yahoovid" := text[i..i + d], "yahooid" := text[i + d + 1..i + d + 1 + e]],
                        i + d + 1 + e))
  }

  /** `screen.yahoo.com/(?P<yahooscreenid>[-\w/]+).html`, dots unescaped */
  function ScanYahooScreen(text: string, h: nat): (r: Option<Capture>)
    requires h <= |text|
    ensures r.Some? ==> h < r.value.end <= |text| && h + 6 <= |text| && Signature(text, h) == ('s', 'r', 'e', 'n')
  {
    var pat := "screen.yahoo.com/";
    if !PatAt(text, h, pat) then None
    else
      SignatureOfPattern(text, h, pat);
      YahooScreenTail(text, h + |pat|)
  }

  /** `(?P<yahooscreenid>[-\w/]+).html` at `i`: the path ends at the last stop its run leaves room for */
  function YahooScreenTail(text: string, i: nat): (r: Option<Capture>)
    requires i <= |text|
    ensures r.Some? ==> i < r.value.end <= |text|
  {
    match LastStop(ScreenStop, text, i + 1, i + Run(text, i, PathChar))
    case None => None
    case Some(j) => Some(Capture(map["yahooscreenid" := text[i..j]], j + 5))
  }

  /** `www\.youtube\.com/(?:watch\?\S*v=|v\/)(?P<youtubeargs>[A-Za-z0-9_&=-]+)\S*` */
  function ScanYoutube(text: string, h: nat): (r: Option<Capture>)
    requires h <= |text|
    ensures r.Some? ==> h < r.value.end <= |text| && h + 6 <= |text| && Signature(text, h) == ('w', 'w', 'y', 'o')
  {
    var lit := "www.youtube.com/";
    if !LitAt(text, h, lit) then None
    else
      SignatureOfLiteral(text, h, lit);
      match YoutubeArgsAt(text, h + |lit|)
      case None => None
      case Some(a) => Some(YoutubeArgs(text, a))
  }

  /** `(?P<youtubeargs>[A-Za-z0-9_&=-]+)\S*` at `a` */
  function YoutubeArgs(text: string, a: nat): (c: Capture)
    requires a <= |text|
    ensures a <= c.end <= |text|
  {
    var n := Run(text, a, ArgChar);
    Capture(map["youtubeargs" := text[a..a + n]], a + n + Run(text, a + n, NonSpace))
  }

  /**
   * Where `youtubeargs` starts: after the last `v=` of `watch?\S*v=` that an
   * argument character follows, or else right after `v/`.
   */
  function YoutubeArgsAt(text: string, i: nat): (r: Option<nat>)
    requires i <= |text|
    ensures r.Some? ==> i < r.value < |text| && InClass(ArgChar, text[r.value])
  {
    var watch :=
      if LitAt(text, i, "watch?") then
        match LastStop(YoutubeStop, text, i + 6, i + 6 + Run(text, i + 6, NonSpace))
        case Some(j) => Some(j + 2)
        case None => None
      else None;
    if watch.Some? then watch
    else if LitAt(text, i, "v/") && i + 2 < |text| && InClass(ArgChar, text[i + 2]) then Some(i + 2)
    else None
  }

  /** `youtu\.be/(?P<youtubeargs>.*)\S*`: with DOTALL the group takes the rest of the text */
  function ScanYoutubeShort(text: string, h: nat): (r: Option<Capture>)
    requires h <= |text|
    ensures r.Some? ==> h < r.value.end <= |text| && h + 6 <= |text| && Signature(text, h) == ('y', 'u', 'u', '.')
  {
    var lit := "youtu.be/";
    if !LitAt(text, h, lit) then None
    else
      SignatureOfLiteral(text, h, lit);
      Some(Capture(map["youtubeargs" := text[h + |lit|..]], |text|))
  }

  /** Group `name` is present, non-empty and made of `cls` characters. */
  predicate GroupOf(groups: map<string, string>, name: string, cls: CharClass)
  {
    name in groups && groups[name] != [] && AllIn(cls, groups[name])
  }

  /** What the groups of each pattern hold. */
  predicate GroupsShape(svc: Service, groups: map<string, string>)
  {
    match svc
    case Dailymotion => GroupOf(groups, "dailymotionid", NotUnderscore)
    case Gametrailers => GroupOf(groups, "gametrailersid", Digit)
    case Metacafe => GroupOf(groups, "metacafeid", WordOrDash)
    case Veoh => GroupOf(groups, "veohid", Word)
    case Vimeo => GroupOf(groups, "vimeoid", Digit)
    case Yahoo => GroupOf(groups, "yahoovid", Digit) && GroupOf(groups, "yahooid", Digit)
    case YahooScreen => GroupOf(groups, "yahooscreenid", PathChar)
    case Youtube => GroupOf(groups, "youtubeargs", ArgChar)
    case YoutubeShort => "youtubeargs" in groups
  }

  /** A capture of the host part has the groups its pattern describes. */
  lemma HostGroupsShape(svc: Service, text: string, h: nat)
    requires h <= |text| && ScanHost(svc, text, h).Some?
    ensures GroupsShape(svc, ScanHost(svc, text, h).value.groups)
  {
    match svc
    case Dailymotion => DailymotionGroupsShape(text, h);
    case Gametrailers => GametrailersGroupsShape(text, h);
    case Metacafe => MetacafeGroupsShape(text, h);
    case Veoh => VeohGroupsShape(text, h);
    case Vimeo => VimeoGroupsShape(text, h);
    case Yahoo => YahooGroupsShape(text, h);
    case YahooScreen => YahooScreenGroupsShape(text, h);
    case Youtube => YoutubeGroupsShape(text, h);
    case YoutubeShort => YoutubeShortGroupsShape(text, h);
  }

  lemma DailymotionGroupsShape(text: string, h: nat)
    requires h <= |text| && ScanDailymotion(text, h).Some?
    ensures GroupsShape(Dailymotion, ScanDailymotion(text, h).value.groups)
  {
    RunSpec(text, h + 26, NotUnderscore);
  }

  lemma GametrailersGroupsShape(text: string, h: nat)
    requires h <= |text| && ScanGametrailers(text, h).Some?
    ensures GroupsShape(Gametrailers, ScanGametrailers(text, h).value.groups)
  {
    var i := h + 27;
    var n := Run(text, i, SlugChar);
    RunSpec(text, i + n + 1, Digit);
  }

  lemma MetacafeGroupsShape(text: string, h: nat)
    requires h <= |text| && ScanMetacafe(text, h).Some?
    ensures GroupsShape(Metacafe, ScanMetacafe(text, h).value.groups)
  {
    RunSpec(text, h + 23, WordOrDash);
  }

  lemma VeohGroupsShape(text: string, h: nat)
    requires h <= |text| && ScanVeoh(text, h).Some?
    ensures GroupsShape(Veoh, ScanVeoh(text, h).value.groups)
  {
    var j := LastStop(VeohStop, text, h + 13, h + 13 + Run(text, h + 13, NonSpace)).value;
    RunSpec(text, if LitAt(text, j, "#watch%3D") then j + 9 else j + 6, Word);
  }

  lemma VimeoGroupsShape(text: string, h: nat)
    requires h <= |text| && ScanVimeo(text, h).Some?
    ensures GroupsShape(Vimeo, ScanVimeo(text, h).value.groups)
  {
    if h + 14 <= |text| {
      RunSpec(text, h + 14, Digit);
    }
    RunSpec(text, h + 10, Digit);
  }

  lemma YahooGroupsShape(text: string, h: nat)
    requires h <= |text| && ScanYahoo(text, h).Some?
    ensures GroupsShape(Yahoo, ScanYahoo(text, h).value.groups)
  {
    var i := h + 22;
    var d := Run(text, i, Digit);
    RunSpec(text, i, Digit);
    RunSpec(text, i + d + 1, Digit);
  }

  lemma YahooScreenGroupsShape(text: string, h: nat)
    requires h <= |text| && ScanYahooScreen(text, h).Some?
    ensures GroupsShape(YahooScreen, ScanYahooScreen(text, h).value.groups)
  {
    RunSpec(text, h + 17, PathChar);
  }

  lemma YoutubeGroupsShape(text: string, h: nat)
    requires h <= |text| && ScanYoutube(text, h).Some?
    ensures GroupsShape(Youtube, ScanYoutube(text, h).value.groups)
  {
    RunSpec(text, YoutubeArgsAt(text, h + 16).value, ArgChar);
  }

  lemma YoutubeShortGroupsShape(text: string, h: nat)
    requires h <= |text| && ScanYoutubeShort(text, h).Some?
    ensures GroupsShape(YoutubeShort, ScanYoutubeShort(text, h).value.groups)
  {
  }

  /** The part of each pattern after `https?://`, starting at `h`. */
  function ScanHost(svc: Service, text: string, h: nat): (r: Option<Capture>)
    requires h <= |text|
    ensures r.Some? ==> r.value.groups.Keys == GroupNames(svc)
    ensures r.Some? ==> h < r.value.end <= |text|
    ensures r.Some? ==> h + 6 <= |text| && Signature(text, h) in Signatures(svc)
  {
    match svc
    case Dailymotion => ScanDailymotion(text, h)
    case Gametrailers => ScanGametrailers(text, h)
    case Metacafe => ScanMetacafe(text, h)
    case Veoh => ScanVeoh(text, h)
    case Vimeo => ScanVimeo(text, h)
    case Yahoo => ScanYahoo(text, h)
    case YahooScreen => ScanYahooScreen(text, h)
    case Youtube => ScanYoutube(text, h)
    case YoutubeShort => ScanYoutubeShort(text, h)
  }

  /** `https?://` at `u`: where the host starts. The optional `s` is tried first. */
  function SchemeEnd(text: string, u: nat): (r: Option<nat>)
    ensures r.Some? ==> LitAt(text, u, "http") && u + 7 <= r.value <= |text|
    ensures r.Some? <==> LitAt(text, u, "https://") || LitAt(text, u, "http://")
    ensures LitAt(text, u, "https://") ==> r == Some(u + 8)
    ensures !LitAt(text, u, "https://") && LitAt(text, u, "http://") ==> r == Some(u + 7)
  {
    if LitAt(text, u, "https://") then
      LitPrefix(text, u, "https://", 4);
      Some(u + 8)
    else if LitAt(text, u, "http://") then
      LitPrefix(text, u, "http://", 4);
      Some(u + 7)
    else None
  }

  /** A literal occurring at `i` carries each of its prefixes there too. */
  lemma LitPrefix(text: string, i: nat, lit: string, n: nat)
    requires LitAt(text, i, lit) && n <= |lit|
    ensures LitAt(text, i, lit[..n])
  {
    assert text[i..i + n] == text[i..i + |lit|][..n];
  }

  /** The whole URL part of a pattern, starting at `u`. */
  function UrlAt(svc: Service, text: string, u: nat): (r: Option<Capture>)
    ensures r.Some? ==> SchemeEnd(text, u).Some? && ScanHost(svc, text, SchemeEnd(text, u).value) == r
    ensures r.Some? ==> LitAt(text, u, "http") && u + 7 < r.value.end <= |text|
    ensures r.Some? ==> r.value.groups.Keys == GroupNames(svc)
  {
    match SchemeEnd(text, u)
    case None => None
    case Some(h) => ScanHost(svc, text, h)
  }

  /**
   * The characters the leading context `([^("]|^)` refuses; the two youtube
   * patterns, `([^("\']|^)`, refuse the single quote too.
   */
  predicate Refused(svc: Service, c: char)
  {
    c == '(' || c == '"' || ((svc == Youtube || svc == YoutubeShort) && c == '\'')
  }

  /** A successful match: group 1 (the context character, or empty at `^`), where the URL starts, the named groups, and its end. */
  datatype Match = Match(lead: string, url: nat, groups: map<string, string>, end: nat)

  /**
   * One attempt of a pattern at `pos`.  The first branch of the leading context
   * consumes one character that is not refused and needs the URL right after it;
   * only when that fails, and only at the start of the text, does `^` let the URL
   * start at `pos` itself.
   */
  function Scan(svc: Service, text: string, pos: nat): (r: Option<Match>)
    requires pos <= |text|
    ensures r.Some? ==> LitAt(text, r.value.url, "http") && r.value.url < r.value.end <= |text|
    ensures r.Some? ==> r.value.url == 0 || !Refused(svc, text[r.value.url - 1])
    ensures r.Some? ==>
              || (r.value.url == pos + 1 && r.value.lead == [text[pos]])
              || (r.value.url == pos == 0 && r.value.lead == "")
    ensures r.Some? ==> UrlAt(svc, text, r.value.url) == Some(Capture(r.value.groups, r.value.end))
    ensures r.Some? ==> r.value.groups.Keys == GroupNames(svc)
  {
    var afterLead := if pos < |text| && !Refused(svc, text[pos]) then UrlAt(svc, text, pos + 1) else None;
    if afterLead.Some? then Some(Match([text[pos]], pos + 1, afterLead.value.groups, afterLead.value.end))
    else if pos == 0 then
      match UrlAt(svc, text, 0)
      case None => None
      case Some(c) => Some(Match("", 0, c.groups, c.end))
    else None
  }

  /** The first attempt at or after `from` that succeeds, with its position. */
  function FirstSome<T>(attempts: seq<Option<T>>, from: nat): (r: Option<(nat, T)>)
    requires from <= |attempts|
    ensures r.Some? ==> from <= r.value.0 < |attempts| && attempts[r.value.0] == Some(r.value.1)
    ensures r.Some? ==> forall p :: from <= p < r.value.0 ==> attempts[p].None?
    ensures r.None? ==> forall p :: from <= p < |attempts| ==> attempts[p].None?
    decreases |attempts| - from
  {
    if from == |attempts| then None
    else match attempts[from]
      case Some(m) => Some((from, m))
      case None => FirstSome(attempts, from + 1)
  }

  /** One attempt of the pattern at every position of the text, the end included. */
  function Attempts(svc: Service, text: string): (r: seq<Option<Match>>)
    ensures |r| == |text| + 1 && forall p :: 0 <= p <= |text| ==> r[p] == Scan(svc, text, p)
  {
    seq(|text| + 1, p requires 0 <= p <= |text| => Scan(svc, text, p))
  }

  /**
   * The search the host runs with `^(.*?)PAT(.*)$`: the lazy prefix tries the
   * shortest text first, so the match found is the one at the leftmost position.
   */
  function Search(svc: Service, text: string): (r: Option<(nat, Match)>)
    ensures r.Some? ==> r.value.0 <= |text| && Scan(svc, text, r.value.0) == Some(r.value.1)
    ensures r.Some? ==> forall p :: 0 <= p < r.value.0 ==> Scan(svc, text, p).None?
    ensures r.None? ==> forall p :: 0 <= p <= |text| ==> Scan(svc, text, p).None?
  {
    FirstSome(Attempts(svc, text), 0)
  }

  /** A run has exactly the length its three properties determine. */
  lemma RunIs(text: string, i: nat, cls: CharClass, n: nat)
    requires i + n <= |text|
    requires forall k :: i <= k < i + n ==> InClass(cls, text[k])
    requires i + n == |text| || !InClass(cls, text[i + n])
    ensures Run(text, i, cls) == n
    decreases n
  {
    if n > 0 {
      RunIs(text, i + 1, cls, n - 1);
    }
  }

  /** At most one pattern accepts a host starting at `h`. */
  lemma OneHostPattern(s1: Service, s2: Service, text: string, h: nat)
    requires h <= |text| && ScanHost(s1, text, h).Some? && ScanHost(s2, text, h).Some?
    ensures s1 == s2
  {
    SignatureOwner(s1, Signature(text, h));
    SignatureOwner(s2, Signature(text, h));
  }

  /** Two occurrences of `http` cannot start at neighbouring positions. */
  lemma HttpNotAdjacent(text: string, u: nat)
    requires LitAt(text, u, "http")
    ensures !LitAt(text, u + 1, "http")
  {
    LitChars(text, u, "http");
    assert text[u + 1] == "http"[1] == 't';
    assert u + 5 <= |text| ==> text[u + 1..u + 5][0] == 't';
  }

  /**
   * At any one position at most one of the nine patterns matches, so at one
   * position the order of the patterns does not matter. Across positions it
   * can: a greedy group such as Dailymotion's `[^_]+` runs over whitespace and
   * can swallow a later URL that another pattern would have matched on its own.
   */
  lemma OneRecognizerPerPosition(s1: Service, s2: Service, text: string, pos: nat)
    requires pos <= |text| && Scan(s1, text, pos).Some? && Scan(s2, text, pos).Some?
    ensures s1 == s2
  {
    SameUrl(s1, s2, text, pos);
    OneUrlPattern(s1, s2, text, Scan(s1, text, pos).value.url);
  }

  /** Two matches at the same attempt start their URLs at the same place. */
  lemma SameUrl(s1: Service, s2: Service, text: string, pos: nat)
    requires pos <= |text| && Scan(s1, text, pos).Some? && Scan(s2, text, pos).Some?
    ensures Scan(s1, text, pos).value.url == Scan(s2, text, pos).value.url
  {
    var u1, u2 := Scan(s1, text, pos).value.url, Scan(s2, text, pos).value.url;
    if u1 < u2 {
      HttpNotAdjacent(text, u1);
    } else if u2 < u1 {
      HttpNotAdjacent(text, u2);
    }
  }

  /** At most one pattern accepts a URL starting at `u`. */
  lemma OneUrlPattern(s1: Service, s2: Service, text: string, u: nat)
    requires UrlAt(s1, text, u).Some? && UrlAt(s2, text, u).Some?
    ensures s1 == s2
  {
    OneHostPattern(s1, s2, text, SchemeEnd(text, u).value);
  }

  /** Try the patterns in the order given; the first that matches wins. */
  function FirstScan(services: seq<Service>, text: string, pos: nat): (r: Option<(Service, Match)>)
    requires pos <= |text|
    ensures r.Some? ==> r.value.0 in services && Scan(r.value.0, text, pos) == Some(r.value.1)
    ensures r.None? ==> forall s :: s in services ==> Scan(s, text, pos).None?
  {
    if services == [] then None
    else match Scan(services[0], text, pos)
      case Some(m) => Some((services[0], m))
      case None => FirstScan(services[1..], text, pos)
  }

  /** The recognizers at one position, in registration order. */
  function Recognize(text: string, pos: nat): Option<(Service, Match)>
    requires pos <= |text|
  {
    FirstScan(Registry, text, pos)
  }

  /** Whichever pattern matches at a position is the one registration order finds. */
  lemma RecognizeFindsTheMatch(svc: Service, text: string, pos: nat)
    requires pos <= |text| && Scan(svc, text, pos).Some?
    ensures Recognize(text, pos) == Some((svc, Scan(svc, text, pos).value))
  {
    assert svc in Registry;
    var r := Recognize(text, pos);
    OneRecognizerPerPosition(r.value.0, svc, text, pos);
  }

  /**
   * A URL written as a link target, `(http://...)`, or as a quoted attribute,
   * `"http://..."`, is left alone: no attempt at the refused character matches.
   */
  lemma RefusedLeadNeverMatches(svc: Service, text: string, pos: nat)
    requires pos < |text| && Refused(svc, text[pos])
    ensures Scan(svc, text, pos).None?
  {
    if pos == 0 && UrlAt(svc, text, 0).Some? {
      LitFirst(text, 0, "http");
      assert false;
    }
  }
}
