// Video links on the server side (server/api/videos.ts): the embed URL for
// a platform and id, and the id read back out of a page URL. The YouTube
// and Vimeo patterns are left to the regular-expression engine, which is
// opaque here: what those patterns capture arrives as a parameter. The
// TikTok pattern is simple enough to be modelled character by character.

module VideoUrls {
  import opened Common

  const YouTubeEmbed := "https://www.youtube.com/embed/"
  const VimeoEmbed := "https://player.vimeo.com/video/"
  const TikTokEmbed := "https://www.tiktok.com/embed/v2/"
  const YouTubeIdLength := 11

  /** The embed prefix for a lower-cased platform name, if it is one of the three. */
  function EmbedPrefix(platform: string): Option<string> {
    if platform == "youtube" then Some(YouTubeEmbed)
    else if platform == "vimeo" then Some(VimeoEmbed)
    else if platform == "tiktok" then Some(TikTokEmbed)
    else None
  }

  predicate KnownPlatform(platform: string) {
    EmbedPrefix(Lower(platform)).Some?
  }

  /** `getVideoEmbedUrl`. */
  function GetVideoEmbedUrl(platform: string, videoId: string): string {
    match EmbedPrefix(Lower(platform))
    case Some(prefix) => prefix + videoId
    case None => ""
  }

  lemma LowerIdempotent(s: string)
    ensures Lower(Lower(s)) == Lower(s)
  {
  }

  /** An unknown platform gets no embed URL; a known one gets its own prefix
      followed by the id, so the id can be read back and different ids give
      different URLs; and the platform's letter case does not matter. */
  lemma EmbedUrlSpec(platform: string, videoId: string, otherId: string)
    ensures !KnownPlatform(platform) ==> GetVideoEmbedUrl(platform, videoId) == ""
    ensures KnownPlatform(platform) ==>
      var prefix := EmbedPrefix(Lower(platform)).value;
      && GetVideoEmbedUrl(platform, videoId)[..|prefix|] == prefix
      && GetVideoEmbedUrl(platform, videoId)[|prefix|..] == videoId
      && (GetVideoEmbedUrl(platform, videoId) == GetVideoEmbedUrl(platform, otherId) ==> videoId == otherId)
    ensures GetVideoEmbedUrl(Lower(platform), videoId) == GetVideoEmbedUrl(platform, videoId)
  {
    LowerIdempotent(platform);
    if KnownPlatform(platform) {
      var prefix := EmbedPrefix(Lower(platform)).value;
      if GetVideoEmbedUrl(platform, videoId) == GetVideoEmbedUrl(platform, otherId) {
        assert (prefix + videoId)[|prefix|..] == videoId;
        assert (prefix + otherId)[|prefix|..] == otherId;
      }
    }
  }

  // ---------------------------------------------------------------------
  // The TikTok pattern `/@<handle>/video/<digits>`
  // ---------------------------------------------------------------------

  /** `[\w.-]`. */
  predicate HandleChar(c: char) {
    'a' <= c <= 'z' || 'A' <= c <= 'Z' || IsDigit(c) || c == '_' || c == '.' || c == '-'
  }

  /** Where the run of handle characters starting at k ends. */
  function HandleEnd(s: string, k: nat): (r: nat)
    requires k <= |s|
    ensures k <= r <= |s|
    decreases |s| - k
  {
    if k < |s| && HandleChar(s[k]) then HandleEnd(s, k + 1) else k
  }

  /** Where the run of digits starting at k ends. */
  function DigitEnd(s: string, k: nat): (r: nat)
    requires k <= |s|
    ensures k <= r <= |s|
    decreases |s| - k
  {
    if k < |s| && IsDigit(s[k]) then DigitEnd(s, k + 1) else k
  }

  /** The pattern matched at position i, and the digits it captures. The
      handle run cannot stop short of its end, because `/` is not a handle
      character, so trying only its longest run loses no match. */
  function TikTokMatchAt(s: string, i: nat): Option<string>
    requires i <= |s|
  {
    if i + 2 <= |s| && s[i..i + 2] == "/@" then
      var j := HandleEnd(s, i + 2);
      if i + 2 < j && j + 7 <= |s| && s[j..j + 7] == "/video/" then
        var d := DigitEnd(s, j + 7);
        if j + 7 < d then Some(s[j + 7..d]) else None
      else None
    else None
  }

  /** `url.match(...)`: the leftmost match from position i on. */
  function TikTokMatchFrom(s: string, i: nat): Option<string>
    requires i <= |s|
    decreases |s| - i
  {
    if TikTokMatchAt(s, i).Some? then TikTokMatchAt(s, i)
    else if i == |s| then None
    else TikTokMatchFrom(s, i + 1)
  }

  function TikTokId(url: string): Option<string> {
    TikTokMatchFrom(url, 0)
  }

  /** What the opaque YouTube and Vimeo patterns capture from the URL:
      `match[7]` and `match[3]`, or `None` when the pattern does not match. */
  datatype Captures = Captures(youtube: Option<string>, vimeo: Option<string>)

  /** `extractVideoId`. */
  function ExtractVideoId(platform: string, url: string, captures: Captures): Option<string> {
    if url == "" then None
    else
      var p := Lower(platform);
      if p == "youtube" then
        if captures.youtube.Some? && |captures.youtube.value| == YouTubeIdLength then captures.youtube else None
      else if p == "vimeo" then captures.vimeo
      else if p == "tiktok" then TikTokId(url)
      else None
  }

  /** No id from an empty URL or an unknown platform; a YouTube id is always
      eleven characters long; a TikTok id is a non-empty run of digits taken
      from the URL, and there is one exactly when the pattern occurs. */
  lemma ExtractVideoIdSpec(platform: string, url: string, captures: Captures)
    ensures url == "" || !KnownPlatform(platform) ==> ExtractVideoId(platform, url, captures) == None
    ensures Lower(platform) == "youtube" && ExtractVideoId(platform, url, captures).Some? ==>
      |ExtractVideoId(platform, url, captures).value| == YouTubeIdLength
    ensures Lower(platform) == "tiktok" && ExtractVideoId(platform, url, captures).Some? ==>
      var id := ExtractVideoId(platform, url, captures).value;
      |id| > 0 && AllDigits(id) && Includes(url, id)
    ensures Lower(platform) == "tiktok" && url != "" ==>
      (ExtractVideoId(platform, url, captures).Some? <==> exists k :: 0 <= k <= |url| && TikTokMatchAt(url, k).Some?)
  {
    if Lower(platform) == "tiktok" && url != "" {
      TikTokLeftmost(url, 0);
      if TikTokId(url).Some? {
        TikTokIdSpec(url, 0);
      }
    }
  }

  lemma {:induction false} DigitRun(s: string, k: nat)
    requires k <= |s|
    ensures AllDigits(s[k..DigitEnd(s, k)])
    decreases |s| - k
  {
    if k < |s| && IsDigit(s[k]) {
      DigitRun(s, k + 1);
      assert s[k..DigitEnd(s, k)] == [s[k]] + s[k + 1..DigitEnd(s, k)];
    }
  }

  /** A TikTok match found from position i on is a non-empty digit run of s. */
  lemma {:induction false} TikTokIdSpec(s: string, i: nat)
    requires i <= |s|
    requires TikTokMatchFrom(s, i).Some?
    ensures var id := TikTokMatchFrom(s, i).value;
      |id| > 0 && AllDigits(id) && Includes(s, id)
    decreases |s| - i
  {
    if TikTokMatchAt(s, i).Some? {
      var j := HandleEnd(s, i + 2);
      DigitRun(s, j + 7);
      var id := s[j + 7..DigitEnd(s, j + 7)];
      assert OccursAt(s, id, j + 7);
    } else {
      TikTokIdSpec(s, i + 1);
    }
  }

  lemma {:induction false} SkipTo(s: string, i: nat, k: nat)
    requires i <= k <= |s|
    requires forall m :: i <= m < k ==> TikTokMatchAt(s, m).None?
    ensures TikTokMatchFrom(s, i) == TikTokMatchFrom(s, k)
    decreases k - i
  {
    if i < k {
      SkipTo(s, i + 1, k);
    }
  }

  lemma {:induction false} HandleEndAt(s: string, k: nat, n: nat)
    requires k <= n <= |s|
    requires forall m :: k <= m < n ==> HandleChar(s[m])
    requires n == |s| || !HandleChar(s[n])
    ensures HandleEnd(s, k) == n
    decreases n - k
  {
    if k < n {
      HandleEndAt(s, k + 1, n);
    }
  }

  lemma {:induction false} DigitEndAt(s: string, k: nat, n: nat)
    requires k <= n <= |s|
    requires forall m :: k <= m < n ==> IsDigit(s[m])
    requires n == |s| || !IsDigit(s[n])
    ensures DigitEnd(s, k) == n
    decreases n - k
  {
    if k < n {
      DigitEndAt(s, k + 1, n);
    }
  }

  lemma {:induction false} HandleRun(s: string, k: nat)
    requires k <= |s|
    ensures forall m :: k <= m < HandleEnd(s, k) ==> HandleChar(s[m])
    ensures HandleEnd(s, k) == |s| || !HandleChar(s[HandleEnd(s, k)])
    decreases |s| - k
  {
    if k < |s| && HandleChar(s[k]) {
      HandleRun(s, k + 1);
    }
  }

  lemma {:induction false} DigitStop(s: string, k: nat)
    requires k <= |s|
    ensures DigitEnd(s, k) == |s| || !IsDigit(s[DigitEnd(s, k)])
    decreases |s| - k
  {
    if k < |s| && IsDigit(s[k]) {
      DigitStop(s, k + 1);
    }
  }

  /** t has the shape `/@<h>/video/<id><rest>`: a non-empty handle, then a
      non-empty digit run that the rest does not continue. */
  predicate TikTokShape(t: string, h: string, id: string, rest: string) {
    && t == "/@" + h + "/video/" + id + rest
    && |h| > 0 && (forall c :: c in h ==> HandleChar(c))
    && |id| > 0 && AllDigits(id)
    && (rest == [] || !IsDigit(rest[0]))
  }

  /** The pattern matches at i, capturing id, exactly when the text from i on
      is `/@`, a handle, `/video/` and then the whole digit run id. */
  lemma TikTokMatchAtSpec(s: string, i: nat, id: string)
    requires i <= |s|
    ensures TikTokMatchAt(s, i) == Some(id) <==> exists h, rest :: TikTokShape(s[i..], h, id, rest)
  {
    if TikTokMatchAt(s, i) == Some(id) {
      MatchHasShape(s, i);
    }
    if h, rest :| TikTokShape(s[i..], h, id, rest) {
      ShapeMatches(s, i, h, id, rest);
    }
  }

  lemma MatchHasShape(s: string, i: nat)
    requires i <= |s| && TikTokMatchAt(s, i).Some?
    ensures TikTokShape(s[i..], s[i + 2..HandleEnd(s, i + 2)], TikTokMatchAt(s, i).value,
      s[DigitEnd(s, HandleEnd(s, i + 2) + 7)..])
  {
    var j := HandleEnd(s, i + 2);
    var d := DigitEnd(s, j + 7);
    assert s[i..i + 2] == "/@" && s[j..j + 7] == "/video/";
    assert TikTokMatchAt(s, i).value == s[j + 7..d];
    HandleRunSlice(s, i + 2);
    DigitRun(s, j + 7);
    DigitStop(s, j + 7);
    JoinSlices(s, i, i + 2, j, j + 7, d);
    assert s[d..] != [] ==> s[d..][0] == s[d];
  }

  /** The handle run starting at k, as a slice, is made of handle characters. */
  lemma HandleRunSlice(s: string, k: nat)
    requires k <= |s|
    ensures forall c :: c in s[k..HandleEnd(s, k)] ==> HandleChar(c)
  {
    HandleRun(s, k);
    var h := s[k..HandleEnd(s, k)];
    forall c | c in h
      ensures HandleChar(c)
    {
      var m :| 0 <= m < |h| && h[m] == c;
      assert c == s[k + m];
    }
  }

  lemma JoinSlices(s: string, a: nat, b: nat, c: nat, d: nat, e: nat)
    requires a <= b <= c <= d <= e <= |s|
    ensures s[a..] == s[a..b] + s[b..c] + s[c..d] + s[d..e] + s[e..]
  {
    assert s[a..] == s[a..b] + s[b..];
    assert s[b..] == s[b..c] + s[c..];
    assert s[c..] == s[c..d] + s[d..];
    assert s[d..] == s[d..e] + s[e..];
  }

  lemma ShapeMatches(s: string, i: nat, h: string, id: string, rest: string)
    requires i <= |s| && TikTokShape(s[i..], h, id, rest)
    ensures TikTokMatchAt(s, i) == Some(id)
  {
    var j := i + 2 + |h|;
    var d := j + 7 + |id|;
    ShapeSlices(s, i, h, id, rest);
    forall m | i + 2 <= m < j
      ensures HandleChar(s[m])
    {
      assert s[m] == s[i + 2..j][m - i - 2];
    }
    assert s[j] == s[j..j + 7][0];
    HandleEndAt(s, i + 2, j);
    forall m | j + 7 <= m < d
      ensures IsDigit(s[m])
    {
      assert s[m] == s[j + 7..d][m - j - 7];
    }
    if d < |s| {
      assert s[d] == s[d..][0];
    }
    DigitEndAt(s, j + 7, d);
  }

  /** The pieces of a shaped text, as slices of s. */
  lemma ShapeSlices(s: string, i: nat, h: string, id: string, rest: string)
    requires i <= |s| && s[i..] == "/@" + h + "/video/" + id + rest
    ensures i + 9 + |h| + |id| <= |s|
    ensures s[i..i + 2] == "/@"
    ensures s[i + 2..i + 2 + |h|] == h
    ensures s[i + 2 + |h|..i + 9 + |h|] == "/video/"
    ensures s[i + 9 + |h|..i + 9 + |h| + |id|] == id
    ensures s[i + 9 + |h| + |id|..] == rest
  {
    var t := s[i..];
    var u := "/@" + h;
    var v := u + "/video/";
    var w := v + id;
    assert t == w + rest;
    assert t[..|w|] == w && t[|w|..] == rest;
    assert w[..|v|] == v && w[|v|..] == id;
    assert v[..|u|] == u && v[|u|..] == "/video/";
    assert u[..2] == "/@" && u[2..] == h;
    assert s[i..i + 2] == t[..2] == u[..2];
    assert s[i + 2..i + 2 + |h|] == t[2..|u|] == u[2..];
    assert s[i + 2 + |h|..i + 9 + |h|] == t[|u|..|v|] == v[|u|..];
    assert s[i + 9 + |h|..i + 9 + |h| + |id|] == t[|v|..|w|] == w[|v|..];
    assert s[i + 9 + |h| + |id|..] == t[|w|..];
  }

  /** `url.match` finds the pattern from i on exactly when it occurs there,
      and then gives the capture at its leftmost occurrence. */
  lemma {:induction false} TikTokLeftmost(s: string, i: nat)
    requires i <= |s|
    ensures TikTokMatchFrom(s, i).Some? <==> exists k :: i <= k <= |s| && TikTokMatchAt(s, k).Some?
    ensures TikTokMatchFrom(s, i).Some? ==>
      exists k :: i <= k <= |s| && TikTokMatchFrom(s, i) == TikTokMatchAt(s, k) &&
        forall m :: i <= m < k ==> TikTokMatchAt(s, m).None?
    decreases |s| - i
  {
    if TikTokMatchAt(s, i).Some? {
      assert TikTokMatchFrom(s, i) == TikTokMatchAt(s, i);
    } else if i == |s| {
    } else {
      TikTokLeftmost(s, i + 1);
      if TikTokMatchFrom(s, i + 1).Some? {
        var k :| i + 1 <= k <= |s| && TikTokMatchFrom(s, i + 1) == TikTokMatchAt(s, k) &&
          forall m :: i + 1 <= m < k ==> TikTokMatchAt(s, m).None?;
        assert TikTokMatchFrom(s, i) == TikTokMatchAt(s, k);
      }
      assert forall k :: i <= k <= |s| && TikTokMatchAt(s, k).Some? ==> i + 1 <= k;
    }
  }
}
