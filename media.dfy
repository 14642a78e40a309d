/** Media classification by file name: video or image, and the MIME type of a video. */
module Media {
  import opened Strings

  /** The suffixes `is_video_file` recognises, in the source's order. */
  const VideoExtensions: seq<string> := [".mp4", ".webm", ".mov", ".avi", ".mkv", ".flv", ".wmv", ".m4v"]

  /** The MIME type of each video suffix, entry by entry with `VideoExtensions`. */
  const VideoMimeTypes: seq<string> := [
    "video/mp4", "video/webm", "video/quicktime", "video/x-msvideo",
    "video/x-matroska", "video/x-flv", "video/x-ms-wmv", "video/mp4"]

  /** Generic video MIME type used when no table entry applies. */
  const DefaultVideoMime: string := "video/mp4"

  /** Largest video, in bytes, that the inline sink will base64-encode (100 MiB). */
  const MaxInlineVideoBytes: nat := 100 * 1024 * 1024

  datatype MediaKind = Image | Video {
    /** The word used in log and error messages ("image" / "video"). */
    function Name(): string {
      if Video? then "video" else "image"
    }
  }

  /** `is_video_file`: the lower-cased name ends with one of the video suffixes. */
  predicate IsVideoFile(filename: string) {
    HasVideoSuffix(Lower(filename))
  }

  /** `str.endswith` applied to the tuple of video suffixes. */
  predicate HasVideoSuffix(name: string) {
    exists k | 0 <= k < |VideoExtensions| :: EndsWith(name, VideoExtensions[k])
  }

  function KindOf(filename: string): MediaKind {
    if IsVideoFile(filename) then Video else Image
  }

  /** The MIME type the inline sink puts in front of a video's base64 payload. */
  function MimeType(filename: string): string {
    MimeOfLowered(Lower(filename))
  }

  /** The `if/elif` MIME chain, on the lower-cased name. */
  function MimeOfLowered(lower: string): string {
    if EndsWith(lower, ".mp4") || EndsWith(lower, ".m4v") then "video/mp4"
    else if EndsWith(lower, ".webm") then "video/webm"
    else if EndsWith(lower, ".mov") then "video/quicktime"
    else if EndsWith(lower, ".avi") then "video/x-msvideo"
    else if EndsWith(lower, ".mkv") then "video/x-matroska"
    else if EndsWith(lower, ".flv") then "video/x-flv"
    else if EndsWith(lower, ".wmv") then "video/x-ms-wmv"
    else DefaultVideoMime
  }

  /** Whether a payload of `size` bytes and this kind is refused by the inline sink. */
  predicate ExceedsInlineCeiling(kind: MediaKind, size: nat) {
    kind.Video? && size > MaxInlineVideoBytes
  }

  /** A four-character suffix is a comparison with the last four characters. */
  lemma EndsWithFour(s: string, e: string)
    requires |e| == 4
    ensures EndsWith(s, e) <==> |s| >= 4 && s[|s| - 4..] == e
  {
  }

  /** A name ending in ".webm" ends in none of the four-character suffixes. */
  lemma WebmExcludesFours(s: string, e: string)
    requires EndsWith(s, ".webm") && |e| == 4 && e != "webm"
    ensures !EndsWith(s, e)
  {
    assert s[|s| - 4..] == s[|s| - 5..][1..];
    assert ".webm"[1..] == "webm";
  }

  /** Classification is case-insensitive: a name and its lower-cased form agree. */
  lemma {:induction false} VideoClassificationIgnoresCase(filename: string)
    ensures IsVideoFile(filename) <==> IsVideoFile(Lower(filename))
  {
    LowerIdempotent(filename);
  }

  /** Names that differ only in letter case classify alike ("clip.MP4", "clip.mp4"). */
  lemma {:induction false} SameLowerSameKind(a: string, b: string)
    requires Lower(a) == Lower(b)
    ensures KindOf(a) == KindOf(b)
  {
  }

  lemma ClipExamplesAreVideo()
    ensures KindOf("clip.MP4") == Video && KindOf("clip.mp4") == Video
    ensures KindOf("frame.PNG") == Image
  {
    assert Lower("clip.MP4") == "clip.mp4";
    assert EndsWith(Lower("clip.mp4"), VideoExtensions[0]);
    var png := Lower("frame.PNG");
    assert png == "frame.png";
    forall k | 0 <= k < |VideoExtensions|
      ensures !EndsWith(png, VideoExtensions[k])
    {
      assert png[|png| - 4..] == ".png";
      if k == 1 {
        assert png[|png| - 5..] == "e.png";
      }
    }
  }

  /**
   * The `if/elif` chain agrees with the table: a name whose lower-cased form ends with
   * the k-th video suffix gets the k-th MIME type, whatever its letter case.
   */
  lemma {:induction false} MimeTypeFollowsTable(filename: string, k: nat)
    requires k < |VideoExtensions| && EndsWith(Lower(filename), VideoExtensions[k])
    ensures MimeType(filename) == VideoMimeTypes[k]
  {
    MimeOfLoweredAt(Lower(filename), k);
  }

  lemma MimeOfLoweredAt(lower: string, k: nat)
    requires k < |VideoExtensions| && EndsWith(lower, VideoExtensions[k])
    ensures MimeOfLowered(lower) == VideoMimeTypes[k]
  {
    var ext, mime := VideoExtensions[k], VideoMimeTypes[k];
    if k == 0 || k == 7 {
      assert mime == "video/mp4";
    } else if k == 1 {
      assert ext == ".webm" && mime == "video/webm";
      WebmExcludesFours(lower, ".mp4");
      WebmExcludesFours(lower, ".m4v");
    } else {
      MimeOfFourCharSuffix(lower, k);
    }
  }

  /** The chain on a name ending in `.mov`, `.avi`, `.mkv`, `.flv` or `.wmv`. */
  lemma MimeOfFourCharSuffix(lower: string, k: nat)
    requires 2 <= k <= 6 && EndsWith(lower, VideoExtensions[k])
    ensures MimeOfLowered(lower) == VideoMimeTypes[k]
  {
    var ext := VideoExtensions[k];
    assert |ext| == 4;
    FourCharSuffixExcludes(lower, ext, ".mp4");
    FourCharSuffixExcludes(lower, ext, ".m4v");
    if EndsWith(lower, ".webm") {
      WebmExcludesFours(lower, ext);
    }
    if k == 2 {
      assert ext == ".mov";
    } else {
      FourCharSuffixExcludes(lower, ext, ".mov");
      if k == 3 {
        assert ext == ".avi";
      } else {
        FourCharSuffixExcludes(lower, ext, ".avi");
        if k == 4 {
          assert ext == ".mkv";
        } else {
          FourCharSuffixExcludes(lower, ext, ".mkv");
          if k == 5 {
            assert ext == ".flv";
          } else {
            FourCharSuffixExcludes(lower, ext, ".flv");
            assert ext == ".wmv";
          }
        }
      }
    }
  }

  /** Two different four-character suffixes cannot both end one name. */
  lemma FourCharSuffixExcludes(s: string, ext: string, other: string)
    requires |ext| == 4 && |other| == 4 && ext != other && EndsWith(s, ext)
    ensures !EndsWith(s, other)
  {
  }

  /** A video's MIME type is `video/mp4` exactly for the `.mp4` and `.m4v` suffixes. */
  lemma {:induction false} MimeTypeIsMp4Exactly(filename: string)
    requires IsVideoFile(filename)
    ensures MimeType(filename) == "video/mp4" <==>
      EndsWith(Lower(filename), ".mp4") || EndsWith(Lower(filename), ".m4v")
  {
    var lower := Lower(filename);
    var k :| 0 <= k < |VideoExtensions| && EndsWith(lower, VideoExtensions[k]);
    MimeOfLoweredAt(lower, k);
    Mp4ExactlyAt(lower, k);
  }

  lemma Mp4ExactlyAt(lower: string, k: nat)
    requires k < |VideoExtensions| && EndsWith(lower, VideoExtensions[k])
    ensures VideoMimeTypes[k] == "video/mp4" <==> EndsWith(lower, ".mp4") || EndsWith(lower, ".m4v")
  {
    if k == 1 {
      WebmExcludesFours(lower, ".mp4");
      WebmExcludesFours(lower, ".m4v");
      assert VideoMimeTypes[1] == "video/webm";
    } else if 2 <= k <= 6 {
      var ext := VideoExtensions[k];
      assert |ext| == 4 && ext != ".mp4" && ext != ".m4v";
      FourCharSuffixExcludes(lower, ext, ".mp4");
      FourCharSuffixExcludes(lower, ext, ".m4v");
      assert VideoMimeTypes[k][6] != 'm' || VideoMimeTypes[k][7] != 'p';
    }
  }

  /**
   * Names outside the table fall back to the generic video type.  The inline sink asks for
   * a MIME type only for names already classified as video, and every video suffix is in
   * the table, so this `else` branch is unreachable from the handler.
   */
  lemma {:induction false} MimeTypeFallback(filename: string)
    requires !IsVideoFile(filename)
    ensures MimeType(filename) == DefaultVideoMime
  {
    var lower := Lower(filename);
    assert !EndsWith(lower, VideoExtensions[0]) && !EndsWith(lower, VideoExtensions[1]);
    assert !EndsWith(lower, VideoExtensions[2]) && !EndsWith(lower, VideoExtensions[3]);
    assert !EndsWith(lower, VideoExtensions[4]) && !EndsWith(lower, VideoExtensions[5]);
    assert !EndsWith(lower, VideoExtensions[6]) && !EndsWith(lower, VideoExtensions[7]);
  }

  /**
   * The source compares the float `len(bytes) / (1024 * 1024)` with 100; over exact
   * reals that is the integer comparison with `MaxInlineVideoBytes` used here.
   */
  lemma InlineCeilingIsMegabyteComparison(size: nat)
    ensures (size as real) / (1024.0 * 1024.0) > 100.0 <==> size > MaxInlineVideoBytes
  {
  }

  /** The ceiling refuses exactly 100 MiB + 1 byte of video, accepts 99 MiB, and never refuses an image. */
  lemma InlineCeilingExamples(size: nat)
    ensures ExceedsInlineCeiling(Video, 100 * 1024 * 1024 + 1)
    ensures !ExceedsInlineCeiling(Video, 99 * 1024 * 1024)
    ensures !ExceedsInlineCeiling(Video, 100 * 1024 * 1024)
    ensures !ExceedsInlineCeiling(Image, size)
  {
  }
}
