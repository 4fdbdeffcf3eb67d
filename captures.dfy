/**
 * What each scanner captures, for every text of the shape its pattern reads:
 * the groups are the pieces the pattern names and the match ends where the
 * pattern stops consuming.  The greedy repetitions of Veoh, Yahoo! screen and
 * Youtube are read at their last stop, the place where the backtracking host
 * engine settles.
 */
module Captures {
  import opened Wrappers
  import opened Scanner

  // ---------------------------------------------------------------- helpers

  /** A piece of a text occurs at the position where it is joined in. */
  lemma LitAtJoin(a: string, b: string, c: string)
    ensures LitAt(a + b + c, |a|, b)
  {
    assert (a + b + c)[|a|..|a| + |b|] == b;
  }

  /** A run over a joined-in piece of the text covers exactly that piece. */
  lemma RunOver(a: string, s: string, b: string, cls: CharClass)
    requires AllIn(cls, s) && (b == [] || !InClass(cls, b[0]))
    ensures Run(a + s + b, |a|, cls) == |s|
  {
    var text := a + s + b;
    assert forall k :: |a| <= k < |a| + |s| ==> text[k] == s[k - |a|];
    assert b != [] ==> text[|a| + |s|] == b[0];
    RunIs(text, |a|, cls, |s|);
  }

  /** A class holds on a joined text when it holds on both pieces. */
  lemma AllInJoin(cls: CharClass, s: string, t: string)
    requires AllIn(cls, s) && AllIn(cls, t)
    ensures AllIn(cls, s + t)
  {
    assert forall k :: |s| <= k < |s + t| ==> (s + t)[k] == t[k - |s|];
  }

  /** Visible ASCII characters are not whitespace. */
  lemma VisibleIsNonSpace(s: string)
    requires forall k :: 0 <= k < |s| ==> '!' <= s[k] <= '~'
    ensures AllIn(NonSpace, s)
  {
  }

  /** A run starting at a piece of the text that the class covers and that a character outside it ends. */
  lemma RunOfPiece(text: string, i: nat, s: string, cls: CharClass)
    requires LitAt(text, i, s) && AllIn(cls, s)
    requires i + |s| == |text| || !InClass(cls, text[i + |s|])
    ensures Run(text, i, cls) == |s|
  {
    LitChars(text, i, s);
    RunIs(text, i, cls, |s|);
  }

  /** Two pieces occurring one after the other form their concatenation. */
  lemma LitJoin(text: string, i: nat, s: string, t: string)
    requires LitAt(text, i, s) && LitAt(text, i + |s|, t)
    ensures LitAt(text, i, s + t)
  {
    LitChars(text, i, s);
    LitChars(text, i + |s|, t);
    assert text[i..i + |s + t|] == s + t;
  }

  /** A prefix and three pieces laid end to end: where each piece sits. */
  lemma Joined3(s: string, a: string, b: string, c: string)
    ensures var t := s + a + b + c;
      && LitAt(t, |s|, a) && LitAt(t, |s| + |a|, b) && LitAt(t, |s| + |a| + |b|, c)
      && t == s + (a + b + c)
  {
    var t := s + a + b + c;
    assert t[|s|..|s| + |a|] == a;
    assert t[|s| + |a|..|s| + |a| + |b|] == b;
    assert t[|s| + |a| + |b|..|s| + |a| + |b| + |c|] == c;
  }

  /** A prefix and four pieces laid end to end: where each piece sits. */
  lemma Joined4(s: string, a: string, b: string, c: string, d: string)
    ensures var t := s + a + b + c + d;
      && LitAt(t, |s|, a) && LitAt(t, |s| + |a|, b) && LitAt(t, |s| + |a| + |b|, c)
      && LitAt(t, |s| + |a| + |b| + |c|, d)
      && t == s + (a + b + c + d)
  {
    var u := s + a + b + c;
    Joined3(s, a, b, c);
    LitExtend(u, |s|, a, d);
    LitExtend(u, |s| + |a|, b, d);
    LitExtend(u, |s| + |a| + |b|, c, d);
    assert (u + d)[|u|..|u| + |d|] == d;
    Regroup(s, a + b + c, d);
  }

  /** A piece found in a text is still there once more text follows. */
  lemma LitExtend(u: string, i: nat, x: string, y: string)
    requires LitAt(u, i, x)
    ensures LitAt(u + y, i, x)
  {
    assert (u + y)[i..i + |x|] == u[i..i + |x|];
  }

  /** Appending after a prefix is associative. */
  lemma Regroup(s: string, m: string, d: string)
    ensures s + m + d == s + (m + d)
  {
  }

  /** A class that holds on a piece holds on the characters of the text it occupies. */
  lemma LitAllIn(text: string, i: nat, s: string, cls: CharClass)
    requires LitAt(text, i, s) && AllIn(cls, s)
    ensures forall t :: i <= t < i + |s| ==> InClass(cls, text[t])
  {
    LitChars(text, i, s);
  }

  /** A literal occurring at `i` is matched by the same text read as a dotted pattern. */
  lemma LitIsPat(text: string, i: nat, s: string)
    requires LitAt(text, i, s)
    ensures PatAt(text, i, s)
  {
    LitChars(text, i, s);
  }

  /** Pieces that start with different characters cannot both occur at `i`. */
  lemma LitsDiffer(text: string, i: nat, s: string, t: string)
    requires LitAt(text, i, s) && s != [] && t != [] && s[0] != t[0]
    ensures !LitAt(text, i, t)
  {
    LitFirst(text, i, s);
    if LitAt(text, i, t) {
      LitFirst(text, i, t);
    }
  }

  /** Word and argument characters are not whitespace. */
  lemma WordIsNonSpace(s: string)
    requires AllIn(Word, s)
    ensures AllIn(NonSpace, s)
  {
  }

  lemma ArgIsNonSpace(s: string)
    requires AllIn(ArgChar, s)
    ensures AllIn(NonSpace, s)
  {
  }

  /**
   * A stop at `j` with none after it up to `hi` is the one the greedy
   * repetition settles on.
   */
  lemma {:induction false} LastStopIs(stop: Stop, text: string, lo: nat, hi: nat, j: nat)
    requires lo <= j <= hi && StopsAt(stop, text, j)
    requires forall k :: j < k <= hi ==> !StopsAt(stop, text, k)
    ensures LastStop(stop, text, lo, hi) == Some(j)
    decreases hi
  {
    if j < hi {
      LastStopIs(stop, text, lo, hi - 1, j);
    }
  }

  // ------------------------------------------------------------- dailymotion

  /** Dailymotion's scanner, read at a host whose `[^_]+` id is followed by `_` and a non-space tail. */
  lemma DailymotionHostAt(text: string, h: nat, n: nat)
    requires LitAt(text, h, "www.dailymotion.com/video/") && 0 < n && h + 27 + n < |text|
    requires Run(text, h + 26, NotUnderscore) == n
    requires Run(text, h + 27 + n, NonSpace) == |text| - (h + 27 + n)
    ensures ScanDailymotion(text, h) == Some(Capture(map["dailymotionid" := text[h + 26..h + 26 + n]], |text|))
  {
  }

  /** The id runs up to the first `_`; the slug after it is consumed by `\S+`. */
  lemma DailymotionHostOf(a: string, id: string, rest: string)
    requires id != [] && AllIn(NotUnderscore, id) && rest != [] && AllIn(NonSpace, rest)
    ensures ScanDailymotion(a + "www.dailymotion.com/video/" + id + "_" + rest, |a|)
         == Some(Capture(map["dailymotionid" := id], |a + "www.dailymotion.com/video/" + id + "_" + rest|))
  {
    var lit := "www.dailymotion.com/video/";
    var text := a + lit + id + "_" + rest;
    assert text == a + lit + (id + "_" + rest);
    LitAtJoin(a, lit, id + "_" + rest);
    assert text == a + lit + id + ("_" + rest);
    RunOver(a + lit, id, "_" + rest, NotUnderscore);
    assert text == a + lit + id + "_" + rest + "";
    RunOver(a + lit + id + "_", rest, "", NonSpace);
    assert text[|a + lit|..|a + lit| + |id|] == id;
    DailymotionHostAt(text, |a|, |id|);
  }

  // ---------------------------------------------------------------- metacafe

  /** Metacafe's scanner, read at a host whose id run ends at a `/` followed by a non-space tail. */
  lemma MetacafeHostAt(text: string, h: nat, n: nat)
    requires LitAt(text, h, "www.metacafe.com/watch/") && 0 < n && h + 24 + n < |text|
    requires Run(text, h + 23, WordOrDash) == n && text[h + 23 + n] == '/'
    requires Run(text, h + 24 + n, NonSpace) == |text| - (h + 24 + n)
    ensures ScanMetacafe(text, h) == Some(Capture(map["metacafeid" := text[h + 23..h + 23 + n]], |text|))
  {
  }

  /** The `[-\w]+` id, then `/` and the rest of the non-space run. */
  lemma MetacafeHostOf(a: string, id: string, rest: string)
    requires id != [] && AllIn(WordOrDash, id) && rest != [] && AllIn(NonSpace, rest)
    ensures ScanMetacafe(a + "www.metacafe.com/watch/" + id + "/" + rest, |a|)
         == Some(Capture(map["metacafeid" := id], |a + "www.metacafe.com/watch/" + id + "/" + rest|))
  {
    var lit := "www.metacafe.com/watch/";
    var text := a + lit + id + "/" + rest;
    assert text == a + lit + (id + "/" + rest);
    LitAtJoin(a, lit, id + "/" + rest);
    assert text == a + lit + id + ("/" + rest);
    RunOver(a + lit, id, "/" + rest, WordOrDash);
    assert text[|a + lit + id|] == '/';
    assert text == a + lit + id + "/" + rest + "";
    RunOver(a + lit + id + "/", rest, "", NonSpace);
    assert text[|a + lit|..|a + lit| + |id|] == id;
    MetacafeHostAt(text, |a|, |id|);
  }

  // ------------------------------------------------------------------- vimeo

  /** A host without `www.` is read by the second branch of `(www.|)`. */
  lemma VimeoBareHost(text: string, h: nat)
    requires LitAt(text, h, "vimeo.com/")
    ensures ScanVimeo(text, h) == VimeoTail(text, h + 10)
  {
    LitFirst(text, h, "vimeo.com/");
    assert !PatAt(text, h, "www.") by {
      assert text[h + 0] == 'v' && "www."[0] == 'w';
    }
  }

  /** The bare `vimeo.com/` host followed by digits and a non-space tail that does not start with a digit. */
  lemma VimeoHostOf(a: string, id: string, rest: string)
    requires id != [] && AllIn(Digit, id) && AllIn(NonSpace, rest) && (rest == [] || !IsDigit(rest[0]))
    ensures ScanHost(Vimeo, a + "vimeo.com/" + id + rest, |a|) == Some(Capture(map["vimeoid" := id], |a + "vimeo.com/" + id + rest|))
  {
    VimeoBarePieces(a, id, rest);
    VimeoBareCapture(a + "vimeo.com/" + id + rest, |a|, id, rest);
  }

  /** Where the pieces of a bare Vimeo address lie. */
  lemma VimeoBarePieces(a: string, id: string, rest: string)
    ensures var text := a + "vimeo.com/" + id + rest;
      && LitAt(text, |a|, "vimeo.com/") && LitAt(text, |a| + 10, id) && LitAt(text, |a| + 10 + |id|, rest)
      && |a| + 10 + |id| + |rest| == |text|
  {
    Joined3(a, "vimeo.com/", id, rest);
  }

  /** The bare host, read at its position: digits, then a non-space tail that whitespace or the end of the text closes. */
  lemma VimeoBareCapture(text: string, h: nat, id: string, rest: string)
    requires LitAt(text, h, "vimeo.com/")
    requires LitAt(text, h + 10, id) && id != [] && AllIn(Digit, id)
    requires LitAt(text, h + 10 + |id|, rest) && AllIn(NonSpace, rest) && (rest == [] || !IsDigit(rest[0]))
    requires h + 10 + |id| + |rest| == |text| || IsSpace(text[h + 10 + |id| + |rest|])
    ensures ScanHost(Vimeo, text, h) == Some(Capture(map["vimeoid" := id], h + 10 + |id| + |rest|))
  {
    VimeoBareHost(text, h);
    VimeoTailAt(text, h + 10, id, rest);
  }

  /** Vimeo's pattern after the host, read at digits followed by a non-space tail that does not start with a digit. */
  lemma VimeoTailAt(text: string, i: nat, id: string, rest: string)
    requires LitAt(text, i, id) && id != [] && AllIn(Digit, id)
    requires LitAt(text, i + |id|, rest) && AllIn(NonSpace, rest) && (rest == [] || !IsDigit(rest[0]))
    requires i + |id| + |rest| == |text| || IsSpace(text[i + |id| + |rest|])
    ensures VimeoTail(text, i) == Some(Capture(map["vimeoid" := id], i + |id| + |rest|))
  {
    if rest != [] {
      LitFirst(text, i + |id|, rest);
    }
    RunOfPiece(text, i, id, Digit);
    RunOfPiece(text, i + |id|, rest, NonSpace);
  }

  /**
   * A host the `www.` branch accepts (its dot matches any character), then
   * digits and a non-space tail that does not start with a digit and that
   * whitespace or the end of the text closes.
   */
  lemma VimeoWwwCapture(text: string, h: nat, id: string, rest: string)
    requires PatAt(text, h, "www.") && LitAt(text, h + 4, "vimeo.com/")
    requires LitAt(text, h + 14, id) && id != [] && AllIn(Digit, id)
    requires LitAt(text, h + 14 + |id|, rest) && AllIn(NonSpace, rest) && (rest == [] || !IsDigit(rest[0]))
    requires h + 14 + |id| + |rest| == |text| || IsSpace(text[h + 14 + |id| + |rest|])
    ensures ScanVimeo(text, h) == Some(Capture(map["vimeoid" := id], h + 14 + |id| + |rest|))
  {
    VimeoTailAt(text, h + 14, id, rest);
  }

  // ------------------------------------------------------------ gametrailers

  /** Gametrailers' pattern after the host, read at a slug, `/` and digits that a non-digit or the end closes. */
  lemma GametrailersTailAt(text: string, i: nat, slug: string, id: string)
    requires LitAt(text, i, slug) && slug != [] && AllIn(SlugChar, slug)
    requires LitAt(text, i + |slug|, "/")
    requires LitAt(text, i + 1 + |slug|, id) && id != [] && AllIn(Digit, id)
    requires i + 1 + |slug| + |id| == |text| || !IsDigit(text[i + 1 + |slug| + |id|])
    ensures GametrailersTail(text, i) == Some(Capture(map["gametrailersid" := id], i + 1 + |slug| + |id|))
  {
    LitChars(text, i + |slug|, "/");
    RunOfPiece(text, i, slug, SlugChar);
    RunOfPiece(text, i + 1 + |slug|, id, Digit);
  }

  /**
   * A host the dotted pattern accepts, a `[a-z0-9-]+` slug, `/` and the digits
   * of the id that a non-digit or the end of the text closes: the id is those
   * digits and the match ends with them.
   */
  lemma GametrailersCapture(text: string, h: nat, slug: string, id: string)
    requires PatAt(text, h, "www.gametrailers.com/video/")
    requires LitAt(text, h + 27, slug) && slug != [] && AllIn(SlugChar, slug)
    requires LitAt(text, h + 27 + |slug|, "/")
    requires LitAt(text, h + 28 + |slug|, id) && id != [] && AllIn(Digit, id)
    requires h + 28 + |slug| + |id| == |text| || !IsDigit(text[h + 28 + |slug| + |id|])
    ensures ScanGametrailers(text, h) == Some(Capture(map["gametrailersid" := id], h + 28 + |slug| + |id|))
  {
    GametrailersTailAt(text, h + 27, slug, id);
  }

  // -------------------------------------------------------------------- veoh

  /** No character of `watch/` is whitespace. */
  lemma WatchHasNoSpace(text: string, k: nat, e: nat)
    requires LitAt(text, k, "watch/") && k <= e < k + 6
    ensures !IsSpace(text[e])
  {
    LitChars(text, k, "watch/");
  }

  /** The last character of `watch/`. */
  lemma WatchSlash(text: string, k: nat)
    requires LitAt(text, k, "watch/")
    ensures text[k + 5] == '/'
  {
    LitChars(text, k, "watch/");
  }

  /** No `/` after a marker's first character and before the text that ends the id. */
  lemma VeohNoSlash(text: string, j: nat, mark: string, e: nat, t: nat)
    requires mark == "#watch%3D" || mark == "watch/"
    requires LitAt(text, j, mark) && j + |mark| <= e <= |text|
    requires forall t :: j + |mark| <= t < e ==> InClass(Word, text[t])
    requires j + 5 < t < e
    ensures text[t] != '/'
  {
    if t < j + |mark| {
      LitChars(text, j, mark);
      assert text[j + (t - j)] == mark[t - j];
    }
  }

  /**
   * After `#watch%3D` or `watch/` at `j`, word characters up to `e` and then
   * whitespace or the end of the text: no later position is a stop, since each
   * marker needs a `#` or a `/` that neither the marker's own tail nor a word
   * holds.
   */
  lemma VeohNoLaterStop(text: string, j: nat, mark: string, e: nat)
    requires mark == "#watch%3D" || mark == "watch/"
    requires LitAt(text, j, mark) && j + |mark| <= e <= |text|
    requires forall t :: j + |mark| <= t < e ==> InClass(Word, text[t])
    requires e == |text| || IsSpace(text[e])
    ensures forall k :: j < k <= e ==> !StopsAt(VeohStop, text, k)
  {
    LitChars(text, j, mark);
    forall k | j < k <= e
      ensures !StopsAt(VeohStop, text, k)
    {
      if LitAt(text, k, "#watch%3D") {
        LitFirst(text, k, "#watch%3D");
        assert false;
      }
      if LitAt(text, k, "watch/") {
        if k + 5 < e {
          VeohNoSlash(text, j, mark, e, k + 5);
          WatchSlash(text, k);
          assert false;
        } else {
          WatchHasNoSpace(text, k, e);
          assert false;
        }
      }
    }
  }

  /** The non-space run at `q` covers the prefix, the marker and the id. */
  lemma VeohRun(text: string, q: nat, pre: string, mark: string, id: string)
    requires mark == "#watch%3D" || mark == "watch/"
    requires LitAt(text, q, pre) && AllIn(NonSpace, pre) && LitAt(text, q + |pre|, mark)
    requires LitAt(text, q + |pre| + |mark|, id) && AllIn(Word, id)
    requires q + |pre| + |mark| + |id| == |text| || IsSpace(text[q + |pre| + |mark| + |id|])
    ensures Run(text, q, NonSpace) == |pre| + |mark| + |id|
  {
    LitJoin(text, q, pre, mark);
    LitJoin(text, q, pre + mark, id);
    VisibleIsNonSpace(mark);
    WordIsNonSpace(id);
    AllInJoin(NonSpace, pre, mark);
    AllInJoin(NonSpace, pre + mark, id);
    RunOfPiece(text, q, pre + mark + id, NonSpace);
  }

  /** A marker followed by a word character is a stop. */
  lemma VeohMarkStops(text: string, j: nat, mark: string, id: string)
    requires mark == "#watch%3D" || mark == "watch/"
    requires LitAt(text, j, mark) && LitAt(text, j + |mark|, id) && id != [] && AllIn(Word, id)
    ensures StopsAt(VeohStop, text, j)
  {
    LitFirst(text, j + |mark|, id);
  }

  /**
   * Veoh's `\S*(#watch%3D|watch/)` read at `q`: a non-space prefix, the marker
   * and a `\w+` id ending the non-space run; the last stop is the marker.
   */
  lemma VeohStopAt(text: string, q: nat, pre: string, mark: string, id: string)
    requires mark == "#watch%3D" || mark == "watch/"
    requires LitAt(text, q, pre) && AllIn(NonSpace, pre) && LitAt(text, q + |pre|, mark)
    requires LitAt(text, q + |pre| + |mark|, id) && id != [] && AllIn(Word, id)
    requires q + |pre| + |mark| + |id| == |text| || IsSpace(text[q + |pre| + |mark| + |id|])
    ensures LastStop(VeohStop, text, q, q + Run(text, q, NonSpace)) == Some(q + |pre|)
  {
    VeohRun(text, q, pre, mark, id);
    VeohLastStop(text, q, q + |pre|, mark, id, q + Run(text, q, NonSpace));
  }

  /** A marker at `j` whose id ends the searched range `q..hi` is the last stop there. */
  lemma VeohLastStop(text: string, q: nat, j: nat, mark: string, id: string, hi: nat)
    requires q <= j && hi == j + |mark| + |id|
    requires mark == "#watch%3D" || mark == "watch/"
    requires LitAt(text, j, mark) && LitAt(text, j + |mark|, id) && id != [] && AllIn(Word, id)
    requires j + |mark| + |id| == |text| || IsSpace(text[j + |mark| + |id|])
    ensures LastStop(VeohStop, text, q, hi) == Some(j)
  {
    VeohStopsOnce(text, j, mark, id);
    LastStopIs(VeohStop, text, q, hi, j);
  }

  /** The marker at `j` is a stop and nothing after it, up to the end of the id, is one. */
  lemma VeohStopsOnce(text: string, j: nat, mark: string, id: string)
    requires mark == "#watch%3D" || mark == "watch/"
    requires LitAt(text, j, mark) && LitAt(text, j + |mark|, id) && id != [] && AllIn(Word, id)
    requires j + |mark| + |id| == |text| || IsSpace(text[j + |mark| + |id|])
    ensures StopsAt(VeohStop, text, j)
    ensures forall k :: j < k <= j + |mark| + |id| ==> !StopsAt(VeohStop, text, k)
  {
    VeohMarkStops(text, j, mark, id);
    LitAllIn(text, j + |mark|, id, Word);
    VeohNoLaterStop(text, j, mark, j + |mark| + |id|);
  }

  /** Which marker occurs at `j` decides where the id starts. */
  lemma VeohMarkAt(text: string, j: nat, mark: string)
    requires mark == "#watch%3D" || mark == "watch/"
    requires LitAt(text, j, mark)
    ensures LitAt(text, j, "#watch%3D") <==> mark == "#watch%3D"
  {
    if mark == "watch/" {
      LitsDiffer(text, j, mark, "#watch%3D");
    }
  }

  /**
   * After the host, any non-space text, then `#watch%3D` or `watch/` and a
   * `\w+` id that ends the non-space run: the id is captured whole and the
   * match ends with it.
   */
  lemma VeohCapture(text: string, h: nat, pre: string, mark: string, id: string)
    requires LitAt(text, h, "www.veoh.com/")
    requires mark == "#watch%3D" || mark == "watch/"
    requires LitAt(text, h + 13, pre) && AllIn(NonSpace, pre) && LitAt(text, h + 13 + |pre|, mark)
    requires LitAt(text, h + 13 + |pre| + |mark|, id) && id != [] && AllIn(Word, id)
    requires h + 13 + |pre| + |mark| + |id| == |text| || IsSpace(text[h + 13 + |pre| + |mark| + |id|])
    ensures ScanVeoh(text, h) == Some(Capture(map["veohid" := id], h + 13 + |pre| + |mark| + |id|))
  {
    VeohTailAt(text, h + 13, pre, mark, id);
  }

  /** The same read from the end of the host. */
  lemma VeohTailAt(text: string, q: nat, pre: string, mark: string, id: string)
    requires mark == "#watch%3D" || mark == "watch/"
    requires LitAt(text, q, pre) && AllIn(NonSpace, pre) && LitAt(text, q + |pre|, mark)
    requires LitAt(text, q + |pre| + |mark|, id) && id != [] && AllIn(Word, id)
    requires q + |pre| + |mark| + |id| == |text| || IsSpace(text[q + |pre| + |mark| + |id|])
    ensures VeohTail(text, q) == Some(Capture(map["veohid" := id], q + |pre| + |mark| + |id|))
  {
    VeohStopAt(text, q, pre, mark, id);
    VeohTailFrom(text, q, q + |pre|, mark, id);
  }

  /** Once the marker at `j` is known to be the last stop, the id after it is captured whole. */
  lemma VeohTailFrom(text: string, q: nat, j: nat, mark: string, id: string)
    requires q <= |text| && LastStop(VeohStop, text, q, q + Run(text, q, NonSpace)) == Some(j)
    requires mark == "#watch%3D" || mark == "watch/"
    requires LitAt(text, j, mark) && LitAt(text, j + |mark|, id) && id != [] && AllIn(Word, id)
    requires j + |mark| + |id| == |text| || IsSpace(text[j + |mark| + |id|])
    ensures VeohTail(text, q) == Some(Capture(map["veohid" := id], j + |mark| + |id|))
  {
    VeohMarkTailIs(text, j, mark, id, j + |mark| + |id|);
    VeohTailIs(text, q, j, Capture(map["veohid" := id], j + |mark| + |id|));
  }

  /** Veoh's tail once the last stop and what the marker there captures are known. */
  lemma VeohTailIs(text: string, q: nat, j: nat, c: Capture)
    requires q <= |text| && LastStop(VeohStop, text, q, q + Run(text, q, NonSpace)) == Some(j)
    requires VeohMarkTail(text, j) == c
    ensures VeohTail(text, q) == Some(c)
  {
  }

  /** A marker and a `\w+` id that whitespace or the end of the text closes: the id is captured whole. */
  lemma VeohMarkTailIs(text: string, j: nat, mark: string, id: string, end: nat)
    requires mark == "#watch%3D" || mark == "watch/"
    requires LitAt(text, j, mark) && LitAt(text, j + |mark|, id) && id != [] && AllIn(Word, id)
    requires end == j + |mark| + |id| && (end == |text| || IsSpace(text[end]))
    ensures StopsAt(VeohStop, text, j)
    ensures VeohMarkTail(text, j) == Capture(map["veohid" := id], end)
  {
    VeohMarkStops(text, j, mark, id);
    VeohMarkAt(text, j, mark);
    RunOfPiece(text, j + |mark|, id, Word);
  }

  // ------------------------------------------------------------------- yahoo

  /** Yahoo's pattern after the host, read at two digit runs separated by `/`. */
  lemma YahooTailAt(text: string, i: nat, vid: string, id: string)
    requires LitAt(text, i, vid) && vid != [] && AllIn(Digit, vid)
    requires LitAt(text, i + |vid|, "/")
    requires LitAt(text, i + 1 + |vid|, id) && id != [] && AllIn(Digit, id)
    requires i + 1 + |vid| + |id| == |text| || !IsDigit(text[i + 1 + |vid| + |id|])
    ensures YahooTail(text, i) == Some(Capture(map["yahoovid" := vid, "yahooid" := id], i + 1 + |vid| + |id|))
  {
    LitChars(text, i + |vid|, "/");
    RunOfPiece(text, i, vid, Digit);
    RunOfPiece(text, i + 1 + |vid|, id, Digit);
  }

  /** Two digit runs separated by `/`: the first is `yahoovid`, the second `yahooid`. */
  lemma YahooCapture(text: string, h: nat, vid: string, id: string)
    requires LitAt(text, h, "video.yahoo.com/watch/")
    requires LitAt(text, h + 22, vid) && vid != [] && AllIn(Digit, vid)
    requires LitAt(text, h + 22 + |vid|, "/")
    requires LitAt(text, h + 23 + |vid|, id) && id != [] && AllIn(Digit, id)
    requires h + 23 + |vid| + |id| == |text| || !IsDigit(text[h + 23 + |vid| + |id|])
    ensures ScanYahoo(text, h) == Some(Capture(map["yahoovid" := vid, "yahooid" := id], h + 23 + |vid| + |id|))
  {
    YahooTailAt(text, h + 22, vid, id);
  }

  // ------------------------------------------------------------ yahoo screen

  /**
   * Yahoo! screen's `[-\w/]+.html` read at `i`: a path, a character outside the
   * path class and `html`; the run ends at that character, which is the stop.
   */
  lemma ScreenStopAt(text: string, i: nat, path: string)
    requires LitAt(text, i, path) && path != [] && AllIn(PathChar, path)
    requires i + |path| < |text| && !InClass(PathChar, text[i + |path|])
    requires LitAt(text, i + |path| + 1, "html")
    ensures LastStop(ScreenStop, text, i + 1, i + Run(text, i, PathChar)) == Some(i + |path|)
  {
    RunOfPiece(text, i, path, PathChar);
    LitChars(text, i + |path| + 1, "html");
    assert PatAt(text, i + |path|, ".html");
  }

  /**
   * A host the dotted pattern accepts, a `[-\w/]+` path, a character outside
   * that class (which the unescaped dot matches) and `html`: the path is the
   * id and the match ends after `html`.
   */
  lemma YahooScreenCapture(text: string, h: nat, path: string)
    requires PatAt(text, h, "screen.yahoo.com/")
    requires LitAt(text, h + 17, path) && path != [] && AllIn(PathChar, path)
    requires h + 17 + |path| < |text| && !InClass(PathChar, text[h + 17 + |path|])
    requires LitAt(text, h + 18 + |path|, "html")
    ensures ScanYahooScreen(text, h) == Some(Capture(map["yahooscreenid" := path], h + 22 + |path|))
  {
    YahooScreenTailAt(text, h + 17, path);
  }

  /** The same read from the end of the host. */
  lemma YahooScreenTailAt(text: string, i: nat, path: string)
    requires LitAt(text, i, path) && path != [] && AllIn(PathChar, path)
    requires i + |path| < |text| && !InClass(PathChar, text[i + |path|])
    requires LitAt(text, i + |path| + 1, "html")
    ensures YahooScreenTail(text, i) == Some(Capture(map["yahooscreenid" := path], i + |path| + 5))
  {
    ScreenStopAt(text, i, path);
    assert text[i..i + |path|] == path;
  }

  // ----------------------------------------------------------------- youtube

  /** No `v=` inside the arguments has a further argument character after it. */
  predicate NoInnerStop(args: string)
  {
    forall k :: 0 <= k < |args| - 2 ==> !(args[k] == 'v' && args[k + 1] == '=')
  }

  /**
   * After `v=` at `j`, arguments at `a` with no inner stop, then whitespace or
   * the end of the text at `e`: no later position up to `e` starts a stop.
   */
  lemma YoutubeNoLaterStop(text: string, j: nat, a: nat, e: nat, args: string)
    requires LitAt(text, j, "v=") && a == j + 2 && e == a + |args|
    requires LitAt(text, a, args) && AllIn(ArgChar, args) && NoInnerStop(args)
    requires e == |text| || IsSpace(text[e])
    ensures forall k :: j < k <= e ==> !StopsAt(YoutubeStop, text, k)
  {
    LitPair(text, j, "v=", 0);
    LitChars(text, a, args);
    forall k | j < k <= e
      ensures !StopsAt(YoutubeStop, text, k)
    {
      if a <= k && k + 2 < e {
        LitPair(text, a, args, k - a);
      }
      if LitAt(text, k, "v=") {
        LitChars(text, k, "v=");
      }
    }
  }

  /** Two neighbouring characters of a literal at `i`. */
  lemma LitPair(text: string, i: nat, s: string, t: nat)
    requires LitAt(text, i, s) && t + 1 < |s|
    ensures text[i + t] == s[t] && text[i + t + 1] == s[t + 1]
  {
    LitChars(text, i, s);
  }

  /**
   * Youtube's `watch\?\S*v=` read at `i`: `watch?`, a non-space prefix, `v=` and
   * arguments with no inner stop that end the non-space run; the arguments start
   * after that `v=`, the last one an argument character follows.
   */
  lemma YoutubeWatchArgsAt(text: string, i: nat, pre: string, args: string)
    requires LitAt(text, i, "watch?") && LitAt(text, i + 6, pre) && AllIn(NonSpace, pre)
    requires LitAt(text, i + 6 + |pre|, "v=")
    requires LitAt(text, i + 8 + |pre|, args) && args != [] && AllIn(ArgChar, args) && NoInnerStop(args)
    requires i + 8 + |pre| + |args| == |text| || IsSpace(text[i + 8 + |pre| + |args|])
    ensures YoutubeArgsAt(text, i) == Some(i + 8 + |pre|)
  {
    YoutubeWatchArgsFrom(text, i, i + 6, i + 6 + |pre|, i + 8 + |pre|, i + 8 + |pre| + |args|, pre, args);
  }

  /**
   * The same with the positions named: `watch?` at `i`, the prefix at `q`, `v=`
   * at `j`, the arguments at `a` and the end of the non-space run at `e`.
   */
  lemma YoutubeWatchArgsFrom(text: string, i: nat, q: nat, j: nat, a: nat, e: nat, pre: string, args: string)
    requires q == i + 6 && j == q + |pre| && a == j + 2 && e == a + |args|
    requires LitAt(text, i, "watch?") && LitAt(text, q, pre) && AllIn(NonSpace, pre) && LitAt(text, j, "v=")
    requires LitAt(text, a, args) && args != [] && AllIn(ArgChar, args) && NoInnerStop(args)
    requires e == |text| || IsSpace(text[e])
    ensures YoutubeArgsAt(text, i) == Some(a)
  {
    YoutubeStopAt(text, q, j, a, e, pre, args);
    YoutubeArgsFromStop(text, i, q, j, a);
  }

  /** After `watch?`, the last `v=` stop at `j` decides where the arguments start: at `a`, just after it. */
  lemma YoutubeArgsFromStop(text: string, i: nat, q: nat, j: nat, a: nat)
    requires LitAt(text, i, "watch?") && q == i + 6 && a == j + 2
    requires LastStop(YoutubeStop, text, q, q + Run(text, q, NonSpace)) == Some(j)
    ensures YoutubeArgsAt(text, i) == Some(a)
  {
  }

  /** The last stop of `\S*v=` read at `q` is the `v=` before the arguments. */
  lemma YoutubeStopAt(text: string, q: nat, j: nat, a: nat, e: nat, pre: string, args: string)
    requires j == q + |pre| && a == j + 2 && e == a + |args|
    requires LitAt(text, q, pre) && AllIn(NonSpace, pre) && LitAt(text, j, "v=")
    requires LitAt(text, a, args) && args != [] && AllIn(ArgChar, args) && NoInnerStop(args)
    requires e == |text| || IsSpace(text[e])
    ensures LastStop(YoutubeStop, text, q, q + Run(text, q, NonSpace)) == Some(j)
  {
    YoutubeRun(text, q, j, a, e, pre, args);
    YoutubeLastStop(text, q, j, a, e, args);
  }

  /** A `v=` at `j` whose arguments end the searched range `q..e` is the last stop there. */
  lemma YoutubeLastStop(text: string, q: nat, j: nat, a: nat, e: nat, args: string)
    requires q <= j && a == j + 2 && e == a + |args|
    requires LitAt(text, j, "v=") && LitAt(text, a, args) && args != [] && AllIn(ArgChar, args) && NoInnerStop(args)
    requires e == |text| || IsSpace(text[e])
    ensures LastStop(YoutubeStop, text, q, e) == Some(j)
  {
    YoutubeStopsOnce(text, j, a, e, args);
    LastStopIs(YoutubeStop, text, q, e, j);
  }

  /** The non-space run at `q` covers the prefix, `v=` and the arguments, up to `e`. */
  lemma YoutubeRun(text: string, q: nat, j: nat, a: nat, e: nat, pre: string, args: string)
    requires j == q + |pre| && a == j + 2 && e == a + |args|
    requires LitAt(text, q, pre) && AllIn(NonSpace, pre) && LitAt(text, j, "v=")
    requires LitAt(text, a, args) && AllIn(ArgChar, args)
    requires e == |text| || IsSpace(text[e])
    ensures q + Run(text, q, NonSpace) == e
  {
    LitJoin(text, q, pre, "v=");
    LitJoin(text, q, pre + "v=", args);
    VisibleIsNonSpace("v=");
    ArgIsNonSpace(args);
    AllInJoin(NonSpace, pre, "v=");
    AllInJoin(NonSpace, pre + "v=", args);
    RunOfPiece(text, q, pre + "v=" + args, NonSpace);
  }

  /** The `v=` at `j` is a stop, and no later position up to the end `e` of the arguments is one. */
  lemma YoutubeStopsOnce(text: string, j: nat, a: nat, e: nat, args: string)
    requires a == j + 2 && e == a + |args|
    requires LitAt(text, j, "v=") && LitAt(text, a, args) && args != [] && AllIn(ArgChar, args) && NoInnerStop(args)
    requires e == |text| || IsSpace(text[e])
    ensures StopsAt(YoutubeStop, text, j)
    ensures forall k :: j < k <= e ==> !StopsAt(YoutubeStop, text, k)
  {
    LitFirst(text, a, args);
    LitChars(text, a, args);
    YoutubeNoLaterStop(text, j, a, e, args);
  }

  /**
   * `watch?`, any non-space text, `v=` and arguments with no inner stop, ending the
   * non-space run: the arguments are captured whole and the match ends with them.
   */
  lemma YoutubeWatchCapture(text: string, h: nat, pre: string, args: string)
    requires LitAt(text, h, "www.youtube.com/") && LitAt(text, h + 16, "watch?")
    requires LitAt(text, h + 22, pre) && AllIn(NonSpace, pre) && LitAt(text, h + 22 + |pre|, "v=")
    requires LitAt(text, h + 24 + |pre|, args) && args != [] && AllIn(ArgChar, args) && NoInnerStop(args)
    requires h + 24 + |pre| + |args| == |text| || IsSpace(text[h + 24 + |pre| + |args|])
    ensures ScanYoutube(text, h) == Some(Capture(map["youtubeargs" := args], h + 24 + |pre| + |args|))
  {
    YoutubeWatchArgsFrom(text, h + 16, h + 22, h + 22 + |pre|, h + 24 + |pre|, h + 24 + |pre| + |args|, pre, args);
    YoutubeWatchScan(text, h, h + 24 + |pre|, h + 24 + |pre| + |args|, args);
  }

  /** Arguments at `a` that run to the end `e` of the non-space run are the whole capture. */
  lemma YoutubeWatchScan(text: string, h: nat, a: nat, e: nat, args: string)
    requires LitAt(text, h, "www.youtube.com/") && h + 16 <= |text| && YoutubeArgsAt(text, h + 16) == Some(a)
    requires LitAt(text, a, args) && AllIn(ArgChar, args) && e == a + |args|
    requires e == |text| || IsSpace(text[e])
    ensures ScanYoutube(text, h) == Some(Capture(map["youtubeargs" := args], e))
  {
    assert LitAt(text, a + |args|, []);
    YoutubeScanFrom(text, h, a, args, [], e);
  }

  /** `v/`, then the arguments and a non-space rest that whitespace or the end of the text closes. */
  lemma YoutubeVCapture(text: string, h: nat, args: string, rest: string)
    requires LitAt(text, h, "www.youtube.com/") && LitAt(text, h + 16, "v/")
    requires LitAt(text, h + 18, args) && args != [] && AllIn(ArgChar, args)
    requires LitAt(text, h + 18 + |args|, rest) && AllIn(NonSpace, rest) && (rest == [] || !InClass(ArgChar, rest[0]))
    requires h + 18 + |args| + |rest| == |text| || IsSpace(text[h + 18 + |args| + |rest|])
    ensures ScanYoutube(text, h) == Some(Capture(map["youtubeargs" := args], h + 18 + |args| + |rest|))
  {
    YoutubeVArgsAt(text, h + 16, args);
    YoutubeScanFrom(text, h, h + 18, args, rest, h + 18 + |args| + |rest|);
  }

  /** After `v/` and an argument character the arguments start right after `v/`. */
  lemma YoutubeVArgsAt(text: string, i: nat, args: string)
    requires LitAt(text, i, "v/") && LitAt(text, i + 2, args) && args != [] && AllIn(ArgChar, args)
    ensures YoutubeArgsAt(text, i) == Some(i + 2)
  {
    LitsDiffer(text, i, "v/", "watch?");
    LitFirst(text, i + 2, args);
  }

  /** Arguments at `a` that end the argument run, then a non-space rest that ends the non-space run. */
  lemma YoutubeArgsIs(text: string, a: nat, args: string, rest: string, end: nat)
    requires LitAt(text, a, args) && AllIn(ArgChar, args)
    requires LitAt(text, a + |args|, rest) && AllIn(NonSpace, rest) && (rest == [] || !InClass(ArgChar, rest[0]))
    requires end == a + |args| + |rest| && (end == |text| || IsSpace(text[end]))
    ensures YoutubeArgs(text, a) == Capture(map["youtubeargs" := args], end)
  {
    if rest != [] {
      LitFirst(text, a + |args|, rest);
    }
    RunOfPiece(text, a, args, ArgChar);
    RunOfPiece(text, a + |args|, rest, NonSpace);
  }

  /** Youtube's scanner once the arguments are known to start at `a`: they and the non-space rest after them are consumed. */
  lemma YoutubeScanFrom(text: string, h: nat, a: nat, args: string, rest: string, end: nat)
    requires LitAt(text, h, "www.youtube.com/") && h + 16 <= |text| && YoutubeArgsAt(text, h + 16) == Some(a)
    requires LitAt(text, a, args) && AllIn(ArgChar, args)
    requires LitAt(text, a + |args|, rest) && AllIn(NonSpace, rest) && (rest == [] || !InClass(ArgChar, rest[0]))
    requires end == a + |args| + |rest| && (end == |text| || IsSpace(text[end]))
    ensures ScanYoutube(text, h) == Some(Capture(map["youtubeargs" := args], end))
  {
    YoutubeArgsIs(text, a, args, rest, end);
  }

  /** `youtu.be/`: with DOTALL the arguments are the whole rest of the text. */
  lemma YoutubeShortCapture(a: string, rest: string)
    ensures ScanYoutubeShort(a + "youtu.be/" + rest, |a|)
         == Some(Capture(map["youtubeargs" := rest], |a + "youtu.be/" + rest|))
  {
    var text := a + "youtu.be/" + rest;
    LitAtJoin(a, "youtu.be/", rest);
    assert text[|a| + 9..] == rest;
  }
}
