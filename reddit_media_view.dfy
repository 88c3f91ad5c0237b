/**
 * What the media area of a post card shows: a video, an image or nothing,
 * with the placeholder and fallback choices of the two branches, and the
 * first two steps of the image URL clean-up (un-escaping `&amp;` and giving
 * scheme-relative URLs a scheme). Foundation's URL parser is the parameter
 * `parses`; the percent-encoding that follows the two steps is not modelled.
 */
module RedditMediaView {
  import opened Wrappers
  import opened RedditClient

  // ---------------------------------------------------------------------
  // Which media a post card shows

  datatype MediaKind = VideoMedia | ImageMedia | NoMedia

  /** The `body`: video before image before nothing. */
  function SelectMedia(p: RedditPost): MediaKind {
    if HasVideo(p) then VideoMedia
    else if HasImage(p) then ImageMedia
    else NoMedia
  }

  lemma SelectMediaPrecedence(p: RedditPost)
    ensures SelectMedia(p) == VideoMedia <==> HasVideo(p)
    ensures SelectMedia(p) == ImageMedia <==> !HasVideo(p) && HasImage(p)
    ensures SelectMedia(p) == NoMedia <==> !HasVideo(p) && !HasImage(p)
  {
  }

  /** The video branch: a player for a parsable video URL, else the "Video not available" placeholder. */
  datatype VideoContent = VideoPlayer(url: string) | VideoUnavailable

  function VideoView(p: RedditPost, parses: string -> bool): VideoContent {
    if VideoURL(p).Some? && parses(VideoURL(p).value) then VideoPlayer(VideoURL(p).value)
    else VideoUnavailable
  }

  lemma VideoViewPlaceholder(p: RedditPost, parses: string -> bool)
    ensures VideoURL(p).None? ==> VideoView(p, parses) == VideoUnavailable
    ensures VideoView(p, parses).VideoPlayer? ==> VideoURL(p) == Some(VideoView(p, parses).url)
  {
  }

  /** A post flagged `is_video` with no media container lands on the placeholder. */
  lemma VideoFlagOnlyShowsPlaceholder(p: RedditPost, parses: string -> bool)
    requires p.isVideo && p.media.None? && p.secureMedia.None?
    ensures SelectMedia(p) == VideoMedia && VideoView(p, parses) == VideoUnavailable
  {
  }

  /**
   * The image branch: an `AsyncImage` loading the cleaned-up URL (after the
   * two modelled steps), or the `EmptyView` fallback when there is no URL.
   */
  datatype ImageContent = AsyncImage(cleaned: string) | NoImage

  function ImageView(p: RedditPost): ImageContent {
    if ImageURL(p).Some? then AsyncImage(ProcessedImageURL(ImageURL(p).value)) else NoImage
  }

  /** Whenever the image branch is taken, the `EmptyView` fallback is never reached. */
  lemma ImageFallbackUnreachable(p: RedditPost)
    requires SelectMedia(p) == ImageMedia
    ensures ImageView(p).AsyncImage?
  {
  }

  // ---------------------------------------------------------------------
  // Step 1: replacingOccurrences(of: "&amp;", with: "&")

  const Amp: string := "&amp;"

  /** `s.contains("&amp;")`. */
  predicate ContainsAmp(s: string)
    decreases |s|
  {
    |s| >= 5 && (s[..5] == Amp || ContainsAmp(s[1..]))
  }

  /** Every occurrence of `&amp;`, scanning left to right without overlap, becomes `&`. */
  function ReplaceAmp(s: string): string
    decreases |s|
  {
    if |s| < 5 then s
    else if s[..5] == Amp then "&" + ReplaceAmp(s[5..])
    else [s[0]] + ReplaceAmp(s[1..])
  }

  /** The number of occurrences `ReplaceAmp` rewrites. */
  function CountAmp(s: string): nat
    decreases |s|
  {
    if |s| < 5 then 0
    else if s[..5] == Amp then 1 + CountAmp(s[5..])
    else CountAmp(s[1..])
  }

  /** Each rewritten occurrence shortens the string by four characters. */
  lemma {:induction false} ReplaceAmpLength(s: string)
    ensures |ReplaceAmp(s)| == |s| - 4 * CountAmp(s)
    decreases |s|
  {
    if |s| >= 5 {
      if s[..5] == Amp {
        ReplaceAmpLength(s[5..]);
      } else {
        ReplaceAmpLength(s[1..]);
      }
    }
  }

  /** Something is rewritten exactly when the string contains `&amp;`. */
  lemma {:induction false} CountAmpPositiveIff(s: string)
    ensures CountAmp(s) > 0 <==> ContainsAmp(s)
    decreases |s|
  {
    if |s| >= 5 && s[..5] != Amp {
      CountAmpPositiveIff(s[1..]);
    }
  }

  /** A string without `&amp;` passes unchanged, so the `contains` guard changes nothing. */
  lemma {:induction false} ReplaceAmpWithoutOccurrence(s: string)
    requires !ContainsAmp(s)
    ensures ReplaceAmp(s) == s
    decreases |s|
  {
    if |s| >= 5 {
      ReplaceAmpWithoutOccurrence(s[1..]);
      assert [s[0]] + s[1..] == s;
    }
  }

  /** The replacement is one pass: a doubly escaped ampersand is escaped once afterwards. */
  lemma ReplaceAmpSinglePass()
    ensures ReplaceAmp("&amp;amp;") == "&amp;"
    ensures ContainsAmp(ReplaceAmp("&amp;amp;"))
  {
  }

  /** HTML-escaping of ampersands, as the listing's JSON applies it to URLs. */
  function EscapeAmp(s: string): string
    decreases |s|
  {
    if s == [] then []
    else (if s[0] == '&' then Amp else [s[0]]) + EscapeAmp(s[1..])
  }

  /** Step 1 undoes the escaping exactly. */
  lemma {:induction false} ReplaceAmpUndoesEscape(s: string)
    ensures ReplaceAmp(EscapeAmp(s)) == s
    decreases |s|
  {
    if s != [] {
      var rest := EscapeAmp(s[1..]);
      var e := EscapeAmp(s);
      ReplaceAmpUndoesEscape(s[1..]);
      if s[0] == '&' {
        assert e == Amp + rest;
        assert e[..5] == Amp && e[5..] == rest;
        assert ReplaceAmp(e) == "&" + s[1..];
      } else {
        assert e == [s[0]] + rest;
        if |e| < 5 {
          assert ReplaceAmp(rest) == rest;
        } else {
          assert e[0] != Amp[0];
          assert e[1..] == rest;
        }
      }
      assert [s[0]] + s[1..] == s;
    }
  }

  // ---------------------------------------------------------------------
  // Step 2: "https:" before a scheme-relative URL

  predicate IsSchemeRelative(s: string) {
    |s| >= 2 && s[..2] == "//"
  }

  function AddHttpsScheme(s: string): string {
    if IsSchemeRelative(s) then "https:" + s else s
  }

  lemma AddHttpsSchemeResult(s: string)
    ensures IsSchemeRelative(s) ==>
              AddHttpsScheme(s) == "https:" + s && AddHttpsScheme(s)[..8] == "https://"
    ensures !IsSchemeRelative(s) ==> AddHttpsScheme(s) == s
  {
  }

  // ---------------------------------------------------------------------
  // processImageURL, steps 1 and 2

  /** What the two steps make of `s`; at most six characters longer than `s`. */
  function ProcessedImageURL(s: string): (r: string)
    ensures |r| <= |s| + 6
  {
    ReplaceAmpLength(s);
    AddHttpsScheme(ReplaceAmp(s))
  }

  /** The two rewrites of the local `processedURL`, each under its guard. */
  method ProcessImageURL(urlString: string) returns (processedURL: string)
    ensures processedURL == ProcessedImageURL(urlString)
    ensures |processedURL| <= |urlString| + 6
    ensures !ContainsAmp(urlString) && !IsSchemeRelative(urlString) ==> processedURL == urlString
  {
    processedURL := urlString;
    if ContainsAmp(processedURL) {
      processedURL := ReplaceAmp(processedURL);
    } else {
      ReplaceAmpWithoutOccurrence(processedURL);
    }
    if IsSchemeRelative(processedURL) {
      processedURL := "https:" + processedURL;
    }
  }
}
