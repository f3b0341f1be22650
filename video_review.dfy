// The featured video card (client/src/components/reviews/VideoReview.tsx):
// the watch URL it links to and the short view-count label it shows.

module VideoReviewCard {
  import opened Common
  import opened VideoUrls

  const YouTubeWatch := "https://www.youtube.com/watch?v="
  const VimeoWatch := "https://vimeo.com/"
  const TikTokSite := "https://www.tiktok.com"

  /** `getVideoUrl`: the platform's own page for the video, or the stored URL. */
  function GetVideoUrl(platform: string, videoId: string, channelName: string, url: string): string {
    var p := Lower(platform);
    if p == "youtube" then YouTubeWatch + videoId
    else if p == "vimeo" then VimeoWatch + videoId
    else if p == "tiktok" then TikTokSite + "/@" + channelName + "/video/" + videoId
    else url
  }

  /** An unknown platform links to the stored URL unchanged; a known one links
      to a page whose address ends in the id; the platform's case does not
      matter. */
  lemma GetVideoUrlSpec(platform: string, videoId: string, channelName: string, url: string)
    ensures !KnownPlatform(platform) ==> GetVideoUrl(platform, videoId, channelName, url) == url
    ensures KnownPlatform(platform) ==>
      var r := GetVideoUrl(platform, videoId, channelName, url);
      |videoId| <= |r| && r[|r| - |videoId|..] == videoId
    ensures GetVideoUrl(Lower(platform), videoId, channelName, url) == GetVideoUrl(platform, videoId, channelName, url)
  {
    LowerIdempotent(platform);
  }

  /** Reading the id back out of a TikTok watch URL gives the id, whenever the
      channel name is a valid handle and the id is a run of digits. */
  lemma TikTokRoundTrip(platform: string, videoId: string, channelName: string, url: string, captures: Captures)
    requires Lower(platform) == "tiktok"
    requires |channelName| > 0 && forall i :: 0 <= i < |channelName| ==> HandleChar(channelName[i])
    requires |videoId| > 0 && AllDigits(videoId)
    ensures ExtractVideoId(platform, GetVideoUrl(platform, videoId, channelName, url), captures) == Some(videoId)
  {
    var s := GetVideoUrl(platform, videoId, channelName, url);
    assert s == TikTokSite + "/@" + channelName + "/video/" + videoId;
    NoMatchInSite(s);
    SkipTo(s, 0, 22);
    MatchAfterSite(s, channelName, videoId);
  }

  /** No `/@` starts inside the site address. */
  lemma NoMatchInSite(s: string)
    requires 23 <= |s| && s[..23] == TikTokSite + "/"
    ensures forall m :: 0 <= m < 22 ==> TikTokMatchAt(s, m).None?
  {
    forall m | 0 <= m < 22
      ensures TikTokMatchAt(s, m).None?
    {
      assert s[m + 1] == s[..23][m + 1] == (TikTokSite + "/")[m + 1];
      assert s[m + 1] != '@';
      assert s[m..m + 2][1] == s[m + 1];
      assert s[m..m + 2] != "/@";
    }
  }

  lemma MatchAfterSite(s: string, channelName: string, videoId: string)
    requires s == TikTokSite + "/@" + channelName + "/video/" + videoId
    requires |channelName| > 0 && forall i :: 0 <= i < |channelName| ==> HandleChar(channelName[i])
    requires |videoId| > 0 && AllDigits(videoId)
    ensures TikTokMatchAt(s, 22) == Some(videoId)
  {
    var j := 24 + |channelName|;
    assert s[22..24] == "/@";
    assert forall m :: 24 <= m < j ==> s[m] == channelName[m - 24];
    assert s[j] == '/';
    HandleEndAt(s, 24, j);
    assert s[j..j + 7] == "/video/";
    assert forall m :: j + 7 <= m < |s| ==> s[m] == videoId[m - j - 7];
    DigitEndAt(s, j + 7, |s|);
    assert s[j + 7..|s|] == videoId;
  }

  // ---------------------------------------------------------------------
  // View counts
  // ---------------------------------------------------------------------

  const Thousand := 1000
  const Million := 1000000

  /** `toFixed(1)`'s rounding on exact values: the nearest number of tenths,
      the larger one on a tie. */
  function Tenths(x: real): int {
    (10.0 * x + 0.5).Floor
  }

  /** `x.toFixed(1)` for x >= 0. */
  function Fixed1(x: real): string
    requires 0.0 <= x
  {
    var n := Tenths(x);
    NatToString(n / 10) + "." + [DigitChar(n % 10)]
  }

  /** s is a decimal with one digit after the point that, read without the
      point, is the number n of tenths. */
  predicate ShowsTenths(s: string, n: int) {
    && |s| >= 3 && s[|s| - 2] == '.'
    && AllDigits(s[..|s| - 2] + [s[|s| - 1]])
    && DigitsValue(s[..|s| - 2] + [s[|s| - 1]]) == n
  }

  /** The label is digits, a point and one digit; read back without the point
      it is the number of tenths, which is within half a tenth of x. */
  lemma Fixed1Spec(x: real)
    requires 0.0 <= x
    ensures ShowsTenths(Fixed1(x), Tenths(x))
    ensures 10.0 * x - 0.5 < Tenths(x) as real <= 10.0 * x + 0.5
  {
    var n := Tenths(x);
    var whole := NatToString(n / 10);
    var r := Fixed1(x);
    var digits := whole + [DigitChar(n % 10)];
    assert r[..|r| - 2] == whole;
    assert r[..|r| - 2] + [r[|r| - 1]] == digits;
    assert digits[..|digits| - 1] == whole;
    NatToStringRoundTrip(n / 10);
  }

  /** `formatViewCount`, as written. */
  function FormatViewCount(count: int): string {
    if count >= Million then Fixed1(count as real / Million as real) + "M"
    else if count >= Thousand then Fixed1(count as real / Thousand as real) + "K"
    else IntToString(count)
  }

  /** The suffix says which threshold the count passed; below a thousand the
      label is the count itself, and above it the label before the suffix is
      the count in millions or thousands rounded to tenths. */
  lemma FormatViewCountSpec(count: int)
    ensures var r := FormatViewCount(count);
      && |r| > 0
      && (r[|r| - 1] == 'M' <==> count >= Million)
      && (r[|r| - 1] == 'K' <==> Thousand <= count < Million)
    ensures 0 <= count < Thousand ==>
      AllDigits(FormatViewCount(count)) && DigitsValue(FormatViewCount(count)) == count
    ensures var r := FormatViewCount(count);
      count >= Million ==> ShowsTenths(r[..|r| - 1], Tenths(count as real / Million as real))
    ensures var r := FormatViewCount(count);
      Thousand <= count < Million ==> ShowsTenths(r[..|r| - 1], Tenths(count as real / Thousand as real))
  {
    var r := FormatViewCount(count);
    if count >= Million {
      var x := count as real / Million as real;
      Fixed1Spec(x);
      assert r[..|r| - 1] == Fixed1(x);
    } else if count >= Thousand {
      var x := count as real / Thousand as real;
      Fixed1Spec(x);
      assert r[..|r| - 1] == Fixed1(x);
    }
    if count < Thousand {
      var r := FormatViewCount(count);
      if count < 0 {
        assert r[|r| - 1] == NatToString(-count)[|NatToString(-count)| - 1];
      } else {
        NatToStringRoundTrip(count);
      }
    }
  }

  /** Just under a million, the thousands branch rounds up to a thousand
      thousands: 999999 shows as "1000.0K" rather than "1.0M". */
  lemma ThousandsOverflow()
    ensures FormatViewCount(999999) == "1000.0K"
  {
    assert Tenths(999999 as real / 1000.0) == 10000;
    assert NatToString(1000) == "1000" by {
      assert NatToString(1) == "1";
      assert NatToString(10) == "10";
      assert NatToString(100) == "100";
    }
  }

  /** The view count as evidently intended: counts that would show as a
      thousand thousands move up to the millions. */
  function FormatViewCountCorrected(count: int): string {
    if count >= Million || (count >= Thousand && Tenths(count as real / Thousand as real) >= 10 * Thousand) then
      Fixed1(count as real / Million as real) + "M"
    else if count >= Thousand then Fixed1(count as real / Thousand as real) + "K"
    else IntToString(count)
  }

  /** Below the change point a count is labelled as before, and its
      thousands label shows fewer than a thousand thousands; from the change
      point on the label is in millions and shows at least one million. */
  lemma FormatViewCountCorrectedSpec(count: int)
    ensures Thousand <= count < Million && Tenths(count as real / Thousand as real) < 10 * Thousand ==>
      FormatViewCountCorrected(count) == FormatViewCount(count) &&
      Tenths(count as real / Thousand as real) / 10 < Thousand
    ensures count < Thousand || count >= Million ==> FormatViewCountCorrected(count) == FormatViewCount(count)
    ensures Thousand <= count && Tenths(count as real / Thousand as real) >= 10 * Thousand ==>
      var r := FormatViewCountCorrected(count);
      |r| > 0 && r[|r| - 1] == 'M' && Tenths(count as real / Million as real) >= 10
  {
    if Thousand <= count && Tenths(count as real / Thousand as real) >= 10 * Thousand {
      assert (count as real) / 100.0 + 0.5 >= 10000.0;
      assert count >= 999950;
    }
  }
}
