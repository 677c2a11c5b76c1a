/** `VideoDownloaderBot.download_single_video`: the options handed to yt-dlp
    for one URL, and the path of the file it reports on success. */
module Downloader {
  import opened Wrappers
  import opened Text
  import opened Paths
  import opened Ytdlp

  const AudioSelector := "bestaudio/best"
  const BestSelector := "bestvideo+bestaudio/best"
  const UnknownTitle := "Unknown Title"
  const CookieFile := "cookies.txt"
  const Retries := 5

  /** The resolution names the bot understands and the height each caps at. */
  const HeightMap: map<string, nat> :=
    map["480p" := 480, "720p" := 720, "1080p" := 1080, "2k" := 1440, "4k" := 2160]

  /** The audio post-processor of the mp3 branch. */
  const ExtractMp3 := Postprocessor("FFmpegExtractAudio", "mp3", Some("192"))

  const SelectorHead := "bestvideo[height<="
  const SelectorTail := "]+bestaudio/best"

  /** The format selector for best video no taller than `h`, plus best audio. */
  function CappedSelector(h: nat): string {
    SelectorHead + NatToString(h) + SelectorTail
  }

  /** Reads back the height cap of a format selector; `None` for a
      selector without one. */
  function SelectorCap(selector: string): Option<nat> {
    if |selector| > |SelectorHead| + |SelectorTail|
      && selector[..|SelectorHead|] == SelectorHead
      && selector[|selector| - |SelectorTail|..] == SelectorTail
      && IsDigits(selector[|SelectorHead|..|selector| - |SelectorTail|])
    then Some(DigitsValue(selector[|SelectorHead|..|selector| - |SelectorTail|]))
    else None
  }

  /** The cap written into a capped selector is the height it was built from. */
  lemma CappedSelectorRoundTrip(h: nat)
    ensures SelectorCap(CappedSelector(h)) == Some(h)
  {
    var s := CappedSelector(h);
    var digits := NatToString(h);
    assert s[..|SelectorHead|] == SelectorHead;
    assert s[|s| - |SelectorTail|..] == SelectorTail;
    assert s[|SelectorHead|..|s| - |SelectorTail|] == digits;
    NatToStringRoundTrip(h);
  }

  /** The audio selector and the uncapped video selector carry no cap. */
  lemma UncappedSelectors()
    ensures SelectorCap(BestSelector) == None
    ensures SelectorCap(AudioSelector) == None
  {
  }

  /** The height a resolution choice asks for: `None` for no choice, an
      empty one, or one whose lower-cased form is not in the table. */
  function RequestedHeight(resolutionChoice: Option<string>): (h: Option<nat>)
    ensures h.Some? <==> resolutionChoice.Some? && ToLower(resolutionChoice.value) in HeightMap
    ensures h.Some? ==> h.value == HeightMap[ToLower(resolutionChoice.value)]
    ensures h.Some? ==> h.value in {480, 720, 1080, 1440, 2160}
  {
    match resolutionChoice
    case None => None
    case Some(choice) =>
      if choice == "" then None
      else
        var lowered := ToLower(choice);
        var target := if lowered in HeightMap then Some(HeightMap[lowered]) else None;
        if target.Some? && target.value != 0 then target else None
  }

  /** Resolution choices are compared without regard to ASCII case. */
  lemma RequestedHeightIgnoresCase(choice: string)
    ensures RequestedHeight(Some(choice)) == RequestedHeight(Some(ToLower(choice)))
  {
    ToLowerIdempotent(choice);
  }

  /** The option dictionary passed to `yt_dlp.YoutubeDL`; an absent key is `None`. */
  datatype BotOptions = BotOptions(
    outtmpl: string,
    noplaylist: bool,
    retries: nat,
    progressHook: bool,
    cookiefile: string,
    format: Option<string>,
    postprocessors: Option<seq<Postprocessor>>,
    mergeOutputFormat: Option<string>)

  /** The extension of the file the bot reports. */
  function FinalExtension(formatChoice: string): (ext: string)
    ensures ext == "mp3" <==> formatChoice == "mp3"
    ensures ext == "mp3" || ext == "mp4"
  {
    if formatChoice == "mp3" then "mp3" else "mp4"
  }

  /** What the option dictionary for one URL holds. Every call disables
      playlists, retries five times, installs the progress hook and names
      the cookie file. The mp3 branch selects the best audio, converts it
      with one `FFmpegExtractAudio` step at quality 192 and names the file
      `<title>.mp3`; it sets no merge format. Every other branch merges to
      mp4 under `<title>.<ext>`, capping the video at the requested height
      when the resolution choice names one and taking the best otherwise. */
  ghost predicate IsBotOptionsFor(o: BotOptions, outputPath: string, formatChoice: string,
                             resolutionChoice: Option<string>)
  {
    && o.noplaylist && o.retries == Retries && o.cookiefile == CookieFile && o.progressHook
    && o.format.Some?
    && (o.mergeOutputFormat.None? <==> formatChoice == "mp3")
    && (o.postprocessors.Some? <==> formatChoice == "mp3")
    && (formatChoice == "mp3" ==>
          && o.format == Some(AudioSelector)
          && o.postprocessors == Some([ExtractMp3])
          && o.outtmpl == Join(outputPath, "%(title)s.mp3")
          && EndsWith(o.outtmpl, "%(title)s.mp3"))
    && (formatChoice != "mp3" ==>
          && o.mergeOutputFormat == Some("mp4")
          && o.outtmpl == Join(outputPath, "%(title)s.%(ext)s")
          && SelectorCap(o.format.value) == RequestedHeight(resolutionChoice)
          && (RequestedHeight(resolutionChoice).None? ==> o.format == Some(BestSelector))
          && (RequestedHeight(resolutionChoice).Some? ==>
                o.format == Some(CappedSelector(RequestedHeight(resolutionChoice).value))))
  }

  /** Builds the option dictionary for a non-empty URL, key by key, as the
      branches on the format and the resolution choice do. */
  method SelectOptions(outputPath: string, formatChoice: string, resolutionChoice: Option<string>)
    returns (o: BotOptions)
    ensures IsBotOptionsFor(o, outputPath, formatChoice, resolutionChoice)
  {
    o := BotOptions(Join(outputPath, "%(title)s.%(ext)s"), true, Retries, true, CookieFile,
                    None, None, None);
    if formatChoice == "mp3" {
      o := o.(format := Some(AudioSelector));
      o := o.(postprocessors := Some([ExtractMp3]));
      o := o.(outtmpl := Join(outputPath, "%(title)s.mp3"));
    } else if resolutionChoice.Some? && resolutionChoice.value != "" {
      var lowered := ToLower(resolutionChoice.value);
      var target := if lowered in HeightMap then Some(HeightMap[lowered]) else None;
      if target.Some? && target.value != 0 {
        o := o.(format := Some(CappedSelector(target.value)));
        o := o.(mergeOutputFormat := Some("mp4"));
        CappedSelectorRoundTrip(target.value);
      } else {
        o := o.(format := Some(BestSelector));
        o := o.(mergeOutputFormat := Some("mp4"));
        UncappedSelectors();
      }
    } else {
      o := o.(format := Some(BestSelector));
      o := o.(mergeOutputFormat := Some("mp4"));
      UncappedSelectors();
    }
  }

  /** The name the bot reports: the title, a dot, the extension. */
  function FinalName(title: string, formatChoice: string): (name: string)
    ensures StartsWith(name, title)
    ensures EndsWith(name, "." + FinalExtension(formatChoice))
  {
    var ext := FinalExtension(formatChoice);
    assert title + "." + ext == title + ("." + ext);
    EndsWithConcat(title, "." + ext);
    title + "." + ext
  }

  /** The absolute path reported for a file of that name in `outputPath`. */
  function FinalPath(cwd: string, outputPath: string, name: string): (path: string)
    requires IsAbs(cwd)
    ensures IsAbs(path) && EndsWith(path, name)
    ensures EndsWith(path, Join(outputPath, name))
  {
    var joined := Join(outputPath, name);
    EndsWithTransitive(AbsPath(cwd, joined), joined, name);
    AbsPath(cwd, joined)
  }

  /** Downloads one URL; `opts` is the option dictionary handed to yt-dlp
      (`None` when nothing was handed over) and `path` the returned path.
      `extraction` is what yt-dlp's `extract_info` produced for this call
      and `cwd` the working directory `os.path.abspath` resolves against. */
  method DownloadSingleVideo(url: string, outputPath: string, formatChoice: string,
                             resolutionChoice: Option<string>, cwd: string, extraction: Extraction)
    returns (opts: Option<BotOptions>, path: Option<string>)
    requires IsAbs(cwd)
    // an empty URL is refused before any option is built
    ensures opts.None? <==> url == ""
    ensures url == "" ==> path.None?
    ensures opts.Some? ==> IsBotOptionsFor(opts.value, outputPath, formatChoice, resolutionChoice)
    // the reported file: none when extraction raised
    ensures path.Some? <==> url != "" && extraction.Extracted?
    ensures path.Some? ==>
      var name := FinalName(extraction.info.title.GetOr(UnknownTitle), formatChoice);
      && path.value == FinalPath(cwd, outputPath, name)
      && IsAbs(path.value)
      && EndsWith(path.value, Join(outputPath, name))
      && StartsWith(name, extraction.info.title.GetOr(UnknownTitle))
      && EndsWith(path.value, name)
      && EndsWith(path.value, "." + FinalExtension(formatChoice))
  {
    if url == "" {
      return None, None;
    }
    var o := SelectOptions(outputPath, formatChoice, resolutionChoice);
    opts := Some(o);

    match extraction
    case Extracted(info) =>
      var title := info.title.GetOr(UnknownTitle);
      var name := FinalName(title, formatChoice);
      var full := FinalPath(cwd, outputPath, name);
      EndsWithTransitive(full, name, "." + FinalExtension(formatChoice));
      path := Some(full);
    case DownloadError(_) =>
      path := None;
    case UnexpectedError(_) =>
      path := None;
  }
}
