/**
 * The executor configuration `DownloadQueue._get_ydl_options` builds for a
 * task (utils/download_queue.py): output template, format selector and
 * post-processing.
 */
module YdlOptions {
  import opened Wrappers

  /** `s` with every "p" removed (Python's `s.replace("p", "")`). */
  function StripP(s: string): (r: string)
    ensures 'p' !in r
    ensures |r| <= |s|
  {
    if s == [] then [] else (if s[0] == 'p' then [] else [s[0]]) + StripP(s[1..])
  }

  lemma {:induction false} StripPDistributes(a: string, b: string)
    ensures StripP(a + b) == StripP(a) + StripP(b)
  {
    if a == [] {
      assert a + b == b;
    } else {
      StripPDistributes(a[1..], b);
      var ab := a + b;
      assert ab[0] == a[0] && ab[1..] == a[1..] + b;
      var h := if a[0] == 'p' then [] else [a[0]];
      assert StripP(ab) == h + StripP(a[1..] + b);
      assert StripP(a) == h + StripP(a[1..]);
      Assoc(h, StripP(a[1..]), StripP(b));
    }
  }

  /** A string without "p" is left as it is. */
  lemma {:induction false} StripPKeepsPlain(s: string)
    requires 'p' !in s
    ensures StripP(s) == s
  {
    if s != [] {
      StripPKeepsPlain(s[1..]);
    }
  }

  /** A height quality such as "720p" becomes its number: `StripP(d + "p") == d`. */
  lemma StripPHeight(d: string)
    requires 'p' !in d
    ensures StripP(d + "p") == d
  {
    StripPDistributes(d, "p");
    StripPKeepsPlain(d);
  }

  /** One entry of the `postprocessors` list. */
  datatype Postprocessor = Postprocessor(key: string, preferredCodec: string, preferredQuality: string)

  const ExtractMp3 := Postprocessor("FFmpegExtractAudio", "mp3", "192")

  /**
   * The options handed to the executor. `noplaylist` false stands for the key
   * being absent; the progress hook entry is the task's `ProgressHook`.
   */
  datatype Options = Options(outtmpl: string, format: string, postprocessors: seq<Postprocessor>,
                             noplaylist: bool, quiet: bool, noWarnings: bool)

  /** `dir / name` for a path `dir`. */
  function JoinPath(dir: string, name: string): string {
    dir + "/" + name
  }

  /** The format selector for a video download of the given quality. */
  function VideoFormat(quality: string): (f: string)
    ensures quality == "best" ==> f == "best[height<=1080]/best"
    ensures quality == "worst" ==> f == "worst"
    ensures quality != "best" && quality != "worst" ==> f == "best[height<=" + StripP(quality) + "]/best"
  {
    if quality == "best" then "best[height<=1080]/best"
    else if quality == "worst" then "worst"
    else "best[height<=" + StripP(quality) + "]/best"
  }

  function OptionsFor(outputPath: string, quality: string, audioOnly: bool, playlist: bool): (o: Options)
    ensures o.quiet && o.noWarnings
    ensures audioOnly ==> o.format == "bestaudio/best" && o.postprocessors == [ExtractMp3]
    ensures !audioOnly ==> o.format == VideoFormat(quality) && o.postprocessors == []
    ensures o.noplaylist == !playlist
    ensures o.outtmpl == if playlist then JoinPath(JoinPath(outputPath, "%(playlist_title)s"), "%(title)s.%(ext)s")
                         else JoinPath(outputPath, "%(title)s.%(ext)s")
  {
    var base := Options(JoinPath(outputPath, "%(title)s.%(ext)s"), "", [], false, true, true);
    var withFormat :=
      if audioOnly then base.(format := "bestaudio/best", postprocessors := [ExtractMp3])
      else base.(format := VideoFormat(quality));
    if playlist then withFormat.(outtmpl := JoinPath(JoinPath(outputPath, "%(playlist_title)s"), "%(title)s.%(ext)s"))
    else withFormat.(noplaylist := true)
  }

  /** Any quality other than "best" and "worst" caps the height at its number with every "p" removed. */
  lemma HeightQualityFormat(outputPath: string, d: string, playlist: bool)
    requires 'p' !in d
    ensures OptionsFor(outputPath, d + "p", false, playlist).format == "best[height<=" + d + "]/best"
  {
    StripPHeight(d);
    assert (d + "p")[|d|] == 'p';
    assert "best"[3] == 't' && "worst"[4] == 't';
  }

  /** "best" selects the same format as "1080p". */
  lemma BestMeans1080p(outputPath: string, playlist: bool)
    ensures OptionsFor(outputPath, "best", false, playlist).format == OptionsFor(outputPath, "1080p", false, playlist).format
  {
    var d := "1080";
    assert 'p' !in d by {
      assert d == ['1', '0', '8', '0'];
    }
    HeightQualityFormat(outputPath, d, playlist);
    assert d + "p" == "1080p";
    assert "best[height<=" + d + "]/best" == "best[height<=1080]/best";
  }

  /** An audio-only download ignores the quality; the playlist flag changes only the template and `noplaylist`. */
  lemma OptionsIndependence(outputPath: string, q1: string, q2: string, audioOnly: bool, playlist: bool)
    ensures audioOnly ==> OptionsFor(outputPath, q1, true, playlist) == OptionsFor(outputPath, q2, true, playlist)
    ensures OptionsFor(outputPath, q1, audioOnly, true).format == OptionsFor(outputPath, q1, audioOnly, false).format
    ensures OptionsFor(outputPath, q1, audioOnly, true).postprocessors == OptionsFor(outputPath, q1, audioOnly, false).postprocessors
  {
  }
}
