/**
 Image URLs in app/services/translate.py: an OpenAI image URL becomes a base64
 or a URL source of an Anthropic image block, and back.  The data URLs are
 those of section 3 of RFC 2397.
 */
module DataUrl {
  import opened Text

  datatype Source = Base64(media: string, data: string) | Url(url: string) | OtherSource

  const MARK: string := "data:"
  const DEFAULT_MEDIA: string := "image/png"

  // `s.replace("data:", "")`.
  function RemoveMarks(s: string): string {
    if s == "" then ""
    else if MARK <= s then RemoveMarks(s[5..])
    else [s[0]] + RemoveMarks(s[1..])
  }

  // `"data:" in s`.
  predicate HasMark(s: string) {
    OccursIn(MARK, s)
  }

  function Media(url: string): string {
    var media := RemoveMarks(Before(Before(url, ','), ';'));
    if media == "" then DEFAULT_MEDIA else media
  }

  function ToSource(url: string): Source {
    if MARK <= url then Base64(Media(url), After(url, ',')) else Url(url)
  }

  function Join(media: string, data: string): string {
    MARK + media + ";base64," + data
  }

  // The URL an image block is given on the way back.
  function Normal(url: string): string {
    match ToSource(url)
    case Base64(media, data) => Join(media, data)
    case Url(u) => u
    case OtherSource => ""
  }

  // A URL that survives both directions: any URL that is not a data URL, and a
  // base64 data URL with a media type free of separators and of "data:".
  ghost predicate Canonical(url: string) {
    MARK <= url ==>
      exists media, data :: url == Join(media, data) && MediaType(media) && !HasMark(media)
  }

  ghost predicate MediaType(media: string) {
    media != "" && ',' !in media && ';' !in media
  }

  // What a caller can check before translating.
  predicate Clean(url: string) {
    MARK <= url ==> !HasMark(Media(url))
  }

  // ---------------------------------------------------------------- strings

  lemma {:induction false} RemoveMarksKeepsChars(s: string)
    ensures |RemoveMarks(s)| <= |s| && forall d :: d in RemoveMarks(s) ==> d in s
    ensures HasMark(s) <==> RemoveMarks(s) != s
    ensures HasMark(s) <==> |RemoveMarks(s)| < |s|
  {
    if s != "" {
      if MARK <= s {
        RemoveMarksKeepsChars(s[5..]);
      } else {
        RemoveMarksKeepsChars(s[1..]);
        assert [s[0]] + s[1..] == s;
        assert RemoveMarks(s)[1..] == RemoveMarks(s[1..]);
      }
    }
  }

  // `RemoveMarks` is Python's `replace`: it cuts out the first occurrence and
  // goes on behind it, and leaves a text without one alone.
  lemma {:induction false} RemoveMarksIsReplace(a: string, b: string)
    ensures !OccursIn("data:", a + "data") ==> RemoveMarks(a + "data:" + b) == a + RemoveMarks(b)
    ensures !OccursIn("data:", b) ==> RemoveMarks(b) == b
  {
    RemoveMarksKeepsChars(b);
    hide RemoveMarks;
    if !OccursIn("data:", a + "data") {
      var s := a + "data:" + b;
      if a == "" {
        assert s == MARK + b;
        RemoveMark(b);
        assert "" + RemoveMarks(b) == RemoveMarks(b);
      } else {
        NoMarkInFront(a, b);
        FirstStays(s);
        hide OccursIn;
        assert s[0] == a[0] && s[1..] == a[1..] + "data:" + b;
        RemoveMarksIsReplace(a[1..], b);
        assert [a[0]] + (a[1..] + RemoveMarks(b)) == a + RemoveMarks(b);
      }
    }
  }

  lemma {:induction false} FirstStays(s: string)
    requires s != "" && !(MARK <= s)
    ensures RemoveMarks(s) == [s[0]] + RemoveMarks(s[1..])
  {
  }

  lemma {:induction false} NoMarkInFront(a: string, b: string)
    requires a != "" && !OccursIn("data:", a + "data")
    ensures !(MARK <= a + "data:" + b) && !OccursIn("data:", a[1..] + "data")
  {
    var s := a + "data:" + b;
    assert s[..|a| + 4] == a + "data" && (a + "data")[1..] == a[1..] + "data";
    assert MARK <= s ==> MARK <= a + "data";
  }

  lemma {:induction false} MediaIsMediaType(url: string)
    ensures MediaType(Media(url))
  {
    var header := Before(url, ',');
    BeforeHasNot(url, ',');
    BeforeHasNot(header, ';');
    RemoveMarksKeepsChars(Before(header, ';'));
  }

  // A base64 data URL read back.
  lemma {:induction false} SourceOfJoin(media: string, data: string)
    requires MediaType(media)
    ensures var left := RemoveMarks(media);
            ToSource(Join(media, data)) == Base64(if left == "" then DEFAULT_MEDIA else left, data)
  {
    var header := MARK + media + ";base64";
    var url := Join(media, data);
    assert url == header + [','] + data;
    Cut(header, ',', data);
    assert header == (MARK + media) + [';'] + "base64";
    Cut(MARK + media, ';', "base64");
    assert (MARK + media)[..5] == MARK && (MARK + media)[5..] == media && url[..5] == MARK;
  }

  lemma {:induction false} JoinIsInjective(media: string, media': string, data: string)
    requires Join(media, data) == Join(media', data)
    ensures media == media'
  {
    var url := Join(media, data);
    assert |url| == 13 + |media| + |data| == 13 + |media'| + |data|;
    assert url[5..5 + |media|] == media && url[5..5 + |media|] == media';
  }

  // ---------------------------------------------------------------- round trips

  lemma {:induction false} JoinSurvivesIffUnmarked(media: string, data: string)
    requires MediaType(media)
    ensures Normal(Join(media, data)) == Join(media, data) <==> !HasMark(media)
  {
    var left := RemoveMarks(media);
    SourceOfJoin(media, data);
    RemoveMarksKeepsChars(media);
    if Normal(Join(media, data)) == Join(media, data) {
      JoinIsInjective(if left == "" then DEFAULT_MEDIA else left, media, data);
      NoColonNoMark(DEFAULT_MEDIA);
    }
  }

  lemma {:induction false} NoColonNoMark(s: string)
    requires ':' !in s
    ensures !HasMark(s)
  {
    if s != "" {
      assert |s| >= 5 ==> s[4] in s;
      NoColonNoMark(s[1..]);
    }
  }

  // Exactly the canonical URLs survive the round trip.
  lemma {:induction false} SurvivesIffCanonical(url: string)
    ensures Normal(url) == url <==> Canonical(url)
  {
    if MARK <= url {
      if Normal(url) == url {
        MediaIsMediaType(url);
        JoinSurvivesIffUnmarked(Media(url), After(url, ','));
        assert url == Join(Media(url), After(url, ','));
      }
      if Canonical(url) {
        var media, data :| url == Join(media, data) && MediaType(media) && !HasMark(media);
        JoinSurvivesIffUnmarked(media, data);
      }
    }
  }

  // One round trip reaches a canonical URL exactly for clean URLs.
  lemma {:induction false} NormalIsCanonicalIffClean(url: string)
    ensures Canonical(Normal(url)) <==> Clean(url)
    ensures url != "" ==> Normal(url) != ""
  {
    if MARK <= url {
      MediaIsMediaType(url);
      JoinSurvivesIffUnmarked(Media(url), After(url, ','));
      SurvivesIffCanonical(Normal(url));
    }
  }

  // Removing "data:" once can leave another one behind, so a second round trip
  // changes this URL again.
  lemma {:induction false} MarkedMediaTypeIsUnstable()
    ensures var url := "data:dadata:ta:,";
            Normal(Normal(url)) != Normal(url)
  {
    var url := "data:dadata:ta:,";
    var inner := ['d'] + (['a'] + (MARK + "ta:"));
    hide RemoveMarks, HasMark, OccursIn, Before, After;
    assert url == (MARK + inner) + [','] + "";
    Cut(MARK + inner, ',', "");
    BeforeAll(MARK + inner, ';');
    RemoveMark(inner);
    SkipChar('d', ['a'] + (MARK + "ta:"));
    SkipChar('a', MARK + "ta:");
    RemoveMark("ta:");
    ShortHasNoMark("ta:");
    RemoveMarksKeepsChars("ta:");
    assert ['d'] + (['a'] + "ta:") == MARK;
    assert Media(url) == MARK;
    RemoveMarksKeepsChars(MARK);
    RemoveMark("");
    assert MARK + "" == MARK;
    RemoveMarksKeepsChars("");
    NormalIsCanonicalIffClean(url);
    SurvivesIffCanonical(Normal(url));
  }

  // The length of a media type from which something is left to remove.
  function Excess(url: string): (w: nat) {
    if Clean(url) then 0 else |Media(url)|
  }

  lemma {:induction false} CleanStaysClean(url: string)
    requires Clean(url)
    ensures Canonical(Normal(url)) && Clean(Normal(url))
  {
    hide Normal, Clean, Canonical;
    NormalIsCanonicalIffClean(url);
    SurvivesIffCanonical(Normal(url));
    NormalIsCanonicalIffClean(Normal(url));
  }

  // A round trip leaves less to remove, until nothing is.
  lemma {:induction false} TripHasLessExcess(url: string)
    ensures if Clean(url) then Excess(Normal(url)) == 0 else Excess(Normal(url)) < Excess(url) < |url|
  {
    if Clean(url) {
      CleanStaysClean(url);
    } else {
      var media, data := Media(url), After(url, ',');
      MediaIsMediaType(url);
      SourceOfJoin(media, data);
      RemoveMarksKeepsChars(media);
      NoColonNoMark(DEFAULT_MEDIA);
      MediaIsShorter(url);
    }
  }

  lemma {:induction false} MediaIsShorter(url: string)
    requires MARK <= url && HasMark(Media(url))
    ensures |Media(url)| < |url|
  {
    var header := Before(Before(url, ','), ';');
    BeforeIsShorter(url, ',');
    BeforeIsShorter(Before(url, ','), ';');
    RemoveMarksKeepsChars(header);
    NoColonNoMark(DEFAULT_MEDIA);
    assert header <= url && HasMark(url);
    hide Before, RemoveMarks, OccursIn;
    assert |header| == |url| ==> header == url;
  }

  lemma {:induction false} BeforeIsShorter(s: string, c: char)
    ensures Before(s, c) <= s
  {
    if s != "" && s[0] != c { BeforeIsShorter(s[1..], c); }
  }

  // The URL after `k` round trips.
  function Trips(url: string, k: nat): string
    decreases k
  {
    if k == 0 then url else Trips(Normal(url), k - 1)
  }

  lemma {:induction false} CanonicalStays(url: string, k: nat)
    requires Canonical(url)
    ensures Trips(url, k) == url
    decreases k
  {
    SurvivesIffCanonical(url);
    hide Canonical, Normal;
    if k > 0 { CanonicalStays(url, k - 1); }
  }

  // Every URL settles: within as many round trips as it has characters it
  // becomes one that survives all further ones.
  lemma {:induction false} UrlSettles(url: string, k: nat)
    requires |url| <= k
    ensures Canonical(Trips(url, k)) && Trips(url, k) == Trips(url, |url|)
  {
    if MARK <= url {
      hide Canonical, Normal, Excess, Clean;
      TripHasLessExcess(url);
      SettlesByExcess(url, k);
      SettlesByExcess(url, |url|);
      TripsAgree(url, |url|, k);
    } else {
      CanonicalStays(url, k);
      CanonicalStays(url, |url|);
    }
  }

  lemma {:induction false} SettlesByExcess(url: string, k: nat)
    requires Excess(url) < k
    ensures Canonical(Trips(url, k))
    decreases k
  {
    TripHasLessExcess(url);
    if Clean(url) {
      CleanStaysClean(url);
      hide Canonical, Normal, Excess, Clean;
      CanonicalStays(Normal(url), k - 1);
    } else {
      hide Canonical, Normal, Excess, Clean;
      SettlesByExcess(Normal(url), k - 1);
    }
  }

  lemma {:induction false} TripsAgree(url: string, j: nat, k: nat)
    requires j <= k && Canonical(Trips(url, j))
    ensures Trips(url, k) == Trips(url, j)
    decreases j
  {
    hide Canonical, Normal;
    if j == 0 { CanonicalStays(url, k); } else { TripsAgree(Normal(url), j - 1, k - 1); }
  }

  lemma {:induction false} SkipChar(c: char, s: string)
    requires c != 'd' || (|s| > 1 && s[1] != 't')
    ensures RemoveMarks([c] + s) == [c] + RemoveMarks(s)
  {
    var t := [c] + s;
    assert t[1..] == s && t[0] == c && (|s| > 1 ==> t[2] == s[1]);
    assert MARK[0] == 'd' && MARK[2] == 't';
  }

  lemma {:induction false} RemoveMark(s: string)
    ensures RemoveMarks(MARK + s) == RemoveMarks(s)
  {
  }

  lemma {:induction false} ShortHasNoMark(s: string)
    requires |s| < 5
    ensures !HasMark(s)
  {
    if s != "" { ShortHasNoMark(s[1..]); }
  }

  // Data without a media type becomes a PNG, and data that is not base64 is
  // labelled base64 all the same.
  lemma {:induction false} DataUrlsAreRelabelled(data: string)
    ensures Normal("data:;base64," + data) == Join("image/png", data)
    ensures Normal("data:text/plain," + data) == Join("text/plain", data)
  {
    var a, b := "data:;base64," + data, "data:text/plain," + data;
    hide Before, After, RemoveMarks, OccursIn;
    assert a == "data:;base64" + [','] + data && b == "data:text/plain" + [','] + data;
    Cut("data:;base64", ',', data);
    Cut("data:text/plain", ',', data);
    assert "data:;base64" == MARK + [';'] + "base64";
    Cut(MARK, ';', "base64");
    BeforeAll("data:text/plain", ';');
    RemoveMark("");
    RemoveMark("text/plain");
    assert MARK + "" == MARK && MARK + "text/plain" == "data:text/plain";
    RemoveMarksKeepsChars("");
    NoColonNoMark("text/plain");
    RemoveMarksKeepsChars("text/plain");
  }
}
