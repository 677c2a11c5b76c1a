/** The HTTP service of app.py: listing the usable formats of a video
    (`/formats`), starting a download under a fresh file id (`/download`),
    and serving that file once (`/download/<file_id>`). Flask's routing and
    JSON encoding are not modelled: a reply is a value whose constructor
    stands for its status code. */
module App {
  import opened Wrappers
  import opened Text
  import opened Paths
  import opened Ytdlp

  const DownloadFolder := "downloads"

  /** The resolutions and extensions `/formats` lists. */
  const AllowedResolutions: set<string> := {"audio only", "480p", "720p", "1080p", "1440p", "2160p"}
  const AllowedExts: set<string> := {"mp4", "mp3"}

  /** A reply and its status code. */
  datatype Reply<T> = Ok(body: T) | BadRequest(error: string) | NotFound(error: string) | ServerError(error: string)
  {
    function Status(): (code: int)
      ensures code in {200, 400, 404, 500}
    {
      match this
      case Ok(_) => 200
      case BadRequest(_) => 400
      case NotFound(_) => 404
      case ServerError(_) => 500
    }
  }

  /** Python's truth test on an optional string: present and non-empty. */
  predicate Given(s: Option<string>) {
    s.Some? && s.value != ""
  }

  // ---------------------------------------------------------------- /formats

  /** One entry of the `/formats` reply. */
  datatype FormatEntry = FormatEntry(formatId: string, ext: string, resolution: string)

  /** The resolution and extension a format record is listed under. */
  datatype Label = Label(resolution: string, ext: Option<string>)

  /** `f"{height}p" if height else 'unknown'` */
  function HeightLabel(height: Option<int>): string {
    if height.Some? && height.value != 0 then IntToString(height.value) + "p" else "unknown"
  }

  /** A format with a video codec (or none named) is labelled by its height
      and keeps its own extension; a format with only an audio codec is
      "audio only" as mp3; a format with neither is skipped (`None`). */
  function Classify(f: FormatRecord): Option<Label> {
    if f.vcodec != Some("none") then Some(Label(HeightLabel(f.height), f.ext))
    else if f.acodec != Some("none") && f.vcodec == Some("none") then Some(Label("audio only", Some("mp3")))
    else None
  }

  /** The record is listed: classified, with a listed resolution and extension. */
  predicate Keep(f: FormatRecord) {
    && Classify(f).Some?
    && Classify(f).value.resolution in AllowedResolutions
    && Classify(f).value.ext.Some?
    && Classify(f).value.ext.value in AllowedExts
  }

  /** The entry a kept record is listed as. */
  function EntryOf(f: FormatRecord): FormatEntry
    requires Keep(f) && f.formatId.Some?
  {
    FormatEntry(f.formatId.value, Classify(f).value.ext.value, Classify(f).value.resolution)
  }

  /** The list `/formats` builds from `formats`, or `None` when a record to
      be listed has no `format_id` (the `KeyError` that aborts the loop). */
  function Filtered(formats: seq<FormatRecord>): Option<seq<FormatEntry>>
    decreases |formats|
  {
    if formats == [] then Some([])
    else
      var f := formats[|formats| - 1];
      match Filtered(formats[..|formats| - 1])
      case None => None
      case Some(done) =>
        if !Keep(f) then Some(done)
        else if f.formatId.None? then None
        else Some(done + [EntryOf(f)])
  }

  /** Once a record without `format_id` has aborted the loop, later records
      change nothing. */
  lemma {:induction false} FilteredAbortStays(formats: seq<FormatRecord>, n: nat)
    requires n <= |formats| && Filtered(formats[..n]).None?
    ensures Filtered(formats).None?
    decreases |formats| - n
  {
    if n < |formats| {
      assert formats[..n + 1][..n] == formats[..n];
      FilteredAbortStays(formats, n + 1);
    } else {
      assert formats[..n] == formats;
    }
  }

  /** The loop of `get_formats` that appends the listed records in order. */
  method FilterFormats(formats: seq<FormatRecord>) returns (filtered: Option<seq<FormatEntry>>)
    ensures filtered == Filtered(formats)
  {
    var done: seq<FormatEntry> := [];
    for i := 0 to |formats|
      invariant Filtered(formats[..i]) == Some(done)
    {
      var f := formats[i];
      assert formats[..i + 1][..i] == formats[..i];
      var tag := Classify(f);
      if tag.None? {
        continue;
      }
      if tag.value.resolution in AllowedResolutions && tag.value.ext.Some? && tag.value.ext.value in AllowedExts {
        if f.formatId.None? {
          FilteredAbortStays(formats, i + 1);
          return None;
        }
        done := done + [FormatEntry(f.formatId.value, tag.value.ext.value, tag.value.resolution)];
      }
    }
    assert formats[..|formats|] == formats;
    return Some(done);
  }

  /** The video heights whose label `/formats` lists. */
  const ListedHeights: set<int> := {480, 720, 1080, 1440, 2160}

  /** A height label is listed exactly for the five listed heights; a
      missing or zero height ("unknown") never is. */
  lemma HeightLabelListed(height: Option<int>)
    ensures HeightLabel(height) in AllowedResolutions <==> height.Some? && height.value in ListedHeights
  {
    if height.Some? && height.value != 0 {
      var h := height.value;
      var s := HeightLabel(height);
      assert s[|s| - 1] == 'p';
      assert "audio only"[9] == 'y';
      assert IntToString(480) + "p" == "480p" && IntToString(720) + "p" == "720p";
      assert IntToString(1080) + "p" == "1080p" && IntToString(1440) + "p" == "1440p";
      assert IntToString(2160) + "p" == "2160p";
      if s == "480p" {
        LabelInjective(h, 480);
      } else if s == "720p" {
        LabelInjective(h, 720);
      } else if s == "1080p" {
        LabelInjective(h, 1080);
      } else if s == "1440p" {
        LabelInjective(h, 1440);
      } else if s == "2160p" {
        LabelInjective(h, 2160);
      }
    }
  }

  lemma LabelInjective(a: int, b: int)
    requires IntToString(a) + "p" == IntToString(b) + "p"
    ensures a == b
  {
    var s := IntToString(a) + "p";
    assert s[..|s| - 1] == IntToString(a);
    assert s[..|s| - 1] == IntToString(b);
    IntToStringInjective(a, b);
  }

  /** Which records `/formats` lists: a video format (any `vcodec` other
      than "none", a missing one included) of a listed height whose own
      extension is mp4 or mp3, and every format that has an audio codec
      but no video codec. */
  lemma KeepIff(f: FormatRecord)
    ensures Keep(f) <==>
      || (f.vcodec != Some("none") && f.height.Some? && f.height.value in ListedHeights
          && f.ext.Some? && f.ext.value in AllowedExts)
      || (f.vcodec == Some("none") && f.acodec != Some("none"))
  {
    HeightLabelListed(f.height);
  }

  /** A format with neither codec is never listed. */
  lemma NoCodecsSkipped(f: FormatRecord)
    requires f.vcodec == Some("none") && f.acodec == Some("none")
    ensures Classify(f).None? && !Keep(f)
  {
  }

  /** The loop aborts exactly when some record to be listed has no `format_id`. */
  lemma {:induction false} FilteredAbortsIff(formats: seq<FormatRecord>)
    ensures Filtered(formats).None? <==>
      exists i :: 0 <= i < |formats| && Keep(formats[i]) && formats[i].formatId.None?
    decreases |formats|
  {
    if formats != [] {
      var init := formats[..|formats| - 1];
      FilteredAbortsIff(init);
      assert forall i :: 0 <= i < |init| ==> init[i] == formats[i];
    }
  }

  /** `entries` lists, in order, some of `formats`, each as the entry of a
      kept record: an order-preserving subsequence. */
  ghost predicate Embeds(entries: seq<FormatEntry>, formats: seq<FormatRecord>)
    decreases |formats|
  {
    if entries == [] then true
    else if formats == [] then false
    else
      var f := formats[|formats| - 1];
      || (Keep(f) && f.formatId.Some? && entries[|entries| - 1] == EntryOf(f)
          && Embeds(entries[..|entries| - 1], formats[..|formats| - 1]))
      || Embeds(entries, formats[..|formats| - 1])
  }

  lemma {:induction false} EmbedsShorter(entries: seq<FormatEntry>, formats: seq<FormatRecord>)
    requires Embeds(entries, formats)
    ensures |entries| <= |formats|
    decreases |formats|
  {
    if entries != [] {
      var f := formats[|formats| - 1];
      if Keep(f) && f.formatId.Some? && entries[|entries| - 1] == EntryOf(f)
         && Embeds(entries[..|entries| - 1], formats[..|formats| - 1]) {
        EmbedsShorter(entries[..|entries| - 1], formats[..|formats| - 1]);
      } else {
        EmbedsShorter(entries, formats[..|formats| - 1]);
      }
    }
  }

  /** Every embedded entry is the entry of some kept record with that id. */
  lemma {:induction false} EmbedsFrom(entries: seq<FormatEntry>, formats: seq<FormatRecord>, k: nat)
    requires Embeds(entries, formats) && k < |entries|
    ensures exists i :: 0 <= i < |formats| && Keep(formats[i]) && formats[i].formatId.Some?
                        && entries[k] == EntryOf(formats[i])
    decreases |formats|
  {
    var init := formats[..|formats| - 1];
    assert forall i :: 0 <= i < |init| ==> init[i] == formats[i];
    var f := formats[|formats| - 1];
    if Keep(f) && f.formatId.Some? && entries[|entries| - 1] == EntryOf(f)
       && Embeds(entries[..|entries| - 1], init) {
      if k < |entries| - 1 {
        EmbedsFrom(entries[..|entries| - 1], init, k);
      }
    } else {
      EmbedsFrom(entries, init, k);
    }
  }

  /** The number of records in `formats` that are listed. */
  function CountKept(formats: seq<FormatRecord>): nat
    decreases |formats|
  {
    if formats == [] then 0
    else CountKept(formats[..|formats| - 1]) + (if Keep(formats[|formats| - 1]) then 1 else 0)
  }

  /** The `/formats` list is an order-preserving subsequence of the records,
      holds one entry per kept record and no other, and each entry carries
      its record's `format_id`, a listed resolution and mp4 or mp3. */
  lemma {:induction false} FilteredSpec(formats: seq<FormatRecord>)
    requires Filtered(formats).Some?
    ensures var entries := Filtered(formats).value;
      && Embeds(entries, formats)
      && |entries| == CountKept(formats)
      && |entries| <= |formats|
      && forall k :: 0 <= k < |entries| ==>
           entries[k].resolution in AllowedResolutions && entries[k].ext in AllowedExts
    decreases |formats|
  {
    var entries := Filtered(formats).value;
    if formats != [] {
      var init := formats[..|formats| - 1];
      FilteredSpec(init);
      var done := Filtered(init).value;
      var f := formats[|formats| - 1];
      if Keep(f) {
        assert entries == done + [EntryOf(f)];
        assert entries[..|entries| - 1] == done;
      }
    }
    EmbedsShorter(entries, formats);
    forall k | 0 <= k < |entries|
      ensures entries[k].resolution in AllowedResolutions && entries[k].ext in AllowedExts
    {
      EmbedsFrom(entries, formats, k);
    }
  }

  /** `POST /formats` with body field `url`; `extraction` is what
      `extract_info(url, download=False)` produced. */
  method GetFormats(url: Option<string>, extraction: Extraction) returns (reply: Reply<seq<FormatEntry>>)
    ensures !Given(url) ==> reply == BadRequest("No URL provided")
    ensures Given(url) && extraction.DownloadError? ==> reply == ServerError(extraction.message)
    ensures Given(url) && extraction.UnexpectedError? ==> reply == ServerError(extraction.message)
    ensures Given(url) && extraction.Extracted? ==>
      match Filtered(extraction.info.formats.GetOr([]))
      case None => reply == ServerError("'format_id'")
      case Some(entries) => reply == Ok(entries)
  {
    if !Given(url) {
      return BadRequest("No URL provided");
    }
    match extraction
    case DownloadError(message) =>
      reply := ServerError(message);
    case UnexpectedError(message) =>
      reply := ServerError(message);
    case Extracted(info) =>
      var filtered := FilterFormats(info.formats.GetOr([]));
      if filtered.None? {
        reply := ServerError("'format_id'");
      } else {
        reply := Ok(filtered.value);
      }
  }

  // --------------------------------------------------------------- /download

  /** The option dictionary `/download` passes to yt-dlp. */
  datatype DownloadOptions = DownloadOptions(
    format: string,
    outtmpl: string,
    quiet: bool,
    noWarnings: bool,
    postprocessors: seq<Postprocessor>)

  /** The audio post-processor of a request for `format_id` "mp3". */
  const ExtractMp3 := Postprocessor("FFmpegExtractAudio", "mp3", None)

  /** The options for `formatId`, writing under the file id `fileId`. */
  function OptionsFor(formatId: string, fileId: string): (o: DownloadOptions)
    ensures o.format == formatId && o.quiet && o.noWarnings
    ensures |o.postprocessors| > 0 <==> formatId == "mp3"
    ensures formatId == "mp3" ==> o.postprocessors == [ExtractMp3]
    ensures EndsWith(o.outtmpl, fileId + ".%(ext)s")
    ensures !IsAbs(fileId) ==> o.outtmpl == DownloadFolder + "/" + fileId + ".%(ext)s"
  {
    DownloadOptions(formatId, Join(DownloadFolder, fileId + ".%(ext)s"), true, true,
                    if formatId == "mp3" then [ExtractMp3] else [])
  }

  /** The body of a successful `/download` reply. */
  datatype Started = Started(fileId: string, ext: Option<string>)

  /** What one `/download` call did: the options handed to yt-dlp
      (`None` when the request was refused first) and the reply. */
  datatype DownloadCall = DownloadCall(handedOver: Option<DownloadOptions>, reply: Reply<Started>)

  /** `POST /download` with body fields `url` and `format_id`; `fileId` is
      the fresh `uuid4` and `extraction` what `extract_info(url, download=True)`
      produced. */
  function DownloadVideo(url: Option<string>, formatId: Option<string>, fileId: string,
                         extraction: Extraction): (call: DownloadCall)
    // a request without both fields is refused before yt-dlp is involved
    ensures !Given(url) || !Given(formatId) <==> call.handedOver.None?
    ensures !Given(url) || !Given(formatId) ==> call.reply == BadRequest("Missing URL or format ID")
    ensures call.handedOver.Some? ==> call.handedOver.value == OptionsFor(formatId.value, fileId)
    // a failed extraction is a server error carrying its message
    ensures call.handedOver.Some? && !extraction.Extracted? ==> call.reply == ServerError(extraction.message)
    // success reports the file id and the extension: mp3 for an mp3 request,
    // otherwise whatever yt-dlp reported
    ensures call.reply.Ok? <==> call.handedOver.Some? && extraction.Extracted?
    ensures call.reply.Ok? ==> call.reply.body.fileId == fileId
    ensures call.reply.Ok? && formatId.value == "mp3" ==> call.reply.body.ext == Some("mp3")
    ensures call.reply.Ok? && formatId.value != "mp3" ==> call.reply.body.ext == extraction.info.ext
  {
    if !Given(url) || !Given(formatId) then
      DownloadCall(None, BadRequest("Missing URL or format ID"))
    else
      var opts := OptionsFor(formatId.value, fileId);
      match extraction
      case Extracted(info) =>
        var ext := if formatId.value == "mp3" then Some("mp3") else info.ext;
        DownloadCall(Some(opts), Ok(Started(fileId, ext)))
      case DownloadError(message) => DownloadCall(Some(opts), ServerError(message))
      case UnexpectedError(message) => DownloadCall(Some(opts), ServerError(message))
  }

  // ------------------------------------------------------ /download/<file_id>

  /** The position of the first name in `listing` that begins with `fileId`. */
  function FirstWithPrefix(listing: seq<string>, fileId: string): (i: Option<nat>)
    ensures i.Some? ==> i.value < |listing| && StartsWith(listing[i.value], fileId)
    ensures i.Some? ==> forall j :: 0 <= j < i.value ==> !StartsWith(listing[j], fileId)
    ensures i.None? <==> forall j :: 0 <= j < |listing| ==> !StartsWith(listing[j], fileId)
    decreases |listing|
  {
    if listing == [] then None
    else if StartsWith(listing[0], fileId) then Some(0)
    else
      match FirstWithPrefix(listing[1..], fileId)
      case None => None
      case Some(i) => Some(i + 1)
  }

  /** The first match is the one found by scanning from the front. */
  lemma {:induction false} FirstMatchAt(listing: seq<string>, fileId: string, i: nat)
    requires i < |listing| && StartsWith(listing[i], fileId)
    requires forall j :: 0 <= j < i ==> !StartsWith(listing[j], fileId)
    ensures FirstWithPrefix(listing, fileId) == Some(i)
    decreases i
  {
    if i > 0 {
      FirstMatchAt(listing[1..], fileId, i - 1);
    }
  }

  /** The loop over `os.listdir(DOWNLOAD_FOLDER)` in `serve_file`. */
  method FindFile(listing: seq<string>, fileId: string) returns (found: Option<nat>)
    ensures found == FirstWithPrefix(listing, fileId)
  {
    for i := 0 to |listing|
      invariant forall j :: 0 <= j < i ==> !StartsWith(listing[j], fileId)
    {
      if StartsWith(listing[i], fileId) {
        FirstMatchAt(listing, fileId, i);
        return Some(i);
      }
    }
    return None;
  }

  /** `s` without its element at `i`. */
  function RemoveAt<T>(s: seq<T>, i: nat): (r: seq<T>)
    requires i < |s|
    ensures |r| == |s| - 1
    ensures forall j :: 0 <= j < i ==> r[j] == s[j]
    ensures forall j :: i <= j < |r| ==> r[j] == s[j + 1]
  {
    s[..i] + s[i + 1..]
  }

  /** No name occurs twice, as in a directory listing. */
  predicate Distinct(listing: seq<string>) {
    forall i, j :: 0 <= i < j < |listing| ==> listing[i] != listing[j]
  }

  /** The number of names in `listing` that begin with `fileId`. */
  function CountWithPrefix(listing: seq<string>, fileId: string): nat
    decreases |listing|
  {
    if listing == [] then 0
    else (if StartsWith(listing[0], fileId) then 1 else 0) + CountWithPrefix(listing[1..], fileId)
  }

  /** A request finds a file exactly when some name has its prefix. */
  lemma {:induction false} FoundIffCounted(listing: seq<string>, fileId: string)
    ensures FirstWithPrefix(listing, fileId).None? <==> CountWithPrefix(listing, fileId) == 0
    decreases |listing|
  {
    if listing != [] {
      FoundIffCounted(listing[1..], fileId);
    }
  }

  /** Removing the served name leaves one fewer name with that prefix, and
      removes that name from a listing without duplicates. */
  lemma {:induction false} RemovingServed(listing: seq<string>, fileId: string, i: nat)
    requires FirstWithPrefix(listing, fileId) == Some(i)
    ensures CountWithPrefix(RemoveAt(listing, i), fileId) == CountWithPrefix(listing, fileId) - 1
    ensures Distinct(listing) ==> Distinct(RemoveAt(listing, i)) && listing[i] !in RemoveAt(listing, i)
    decreases |listing|
  {
    if i > 0 {
      RemovingServed(listing[1..], fileId, i - 1);
      assert RemoveAt(listing, i) == [listing[0]] + RemoveAt(listing[1..], i - 1);
    } else {
      assert RemoveAt(listing, 0) == listing[1..];
    }
  }

  /** The managed download folder: its listing in `os.listdir` order. */
  class Downloads {
    var listing: seq<string>

    ghost predicate Valid()
      reads this
    {
      Distinct(listing)
    }

    constructor (names: seq<string>)
      requires Distinct(names)
      ensures Valid() && listing == names
    {
      listing := names;
    }

    /** `GET /download/<file_id>`: sends the first file whose name begins
        with `fileId` and then removes it; `removed` says whether the
        removal succeeded (a failed one is only logged). */
    method ServeFile(fileId: string, removed: bool) returns (reply: Reply<string>)
      requires Valid()
      modifies this
      ensures Valid()
      ensures FirstWithPrefix(old(listing), fileId).None? ==>
        reply == NotFound("File not found") && listing == old(listing)
      ensures FirstWithPrefix(old(listing), fileId).Some? ==>
        var i := FirstWithPrefix(old(listing), fileId).value;
        && reply == Ok(Join(DownloadFolder, old(listing)[i]))
        && listing == (if removed then RemoveAt(old(listing), i) else old(listing))
      // in a folder without duplicate names, a removed file is gone
      ensures FirstWithPrefix(old(listing), fileId).Some? && removed ==>
        old(listing)[FirstWithPrefix(old(listing), fileId).value] !in listing
    {
      var found := FindFile(listing, fileId);
      if found.None? {
        return NotFound("File not found");
      }
      var i := found.value;
      reply := Ok(Join(DownloadFolder, listing[i]));
      if removed {
        RemovingServed(listing, fileId, i);
        listing := RemoveAt(listing, i);
      }
    }
  }

  /** At-most-once delivery: when exactly one stored name begins with
      `fileId`, a request that served and removed it leaves nothing for a
      repeated request, which gets 404. */
  lemma ServedOnce(listing: seq<string>, fileId: string)
    requires CountWithPrefix(listing, fileId) == 1
    ensures FirstWithPrefix(listing, fileId).Some?
    ensures FirstWithPrefix(RemoveAt(listing, FirstWithPrefix(listing, fileId).value), fileId).None?
  {
    FoundIffCounted(listing, fileId);
    var i := FirstWithPrefix(listing, fileId).value;
    RemovingServed(listing, fileId, i);
    FoundIffCounted(RemoveAt(listing, i), fileId);
  }

  /** The file a fresh download leaves, `<file_id>.<ext>`, wherever the
      listing puts it, is the one served for that id, and once it is served
      and removed the id finds nothing more. */
  lemma FreshFileServedOnce(before: seq<string>, after: seq<string>, fileId: string, ext: string)
    requires forall j :: 0 <= j < |before| ==> !StartsWith(before[j], fileId)
    requires forall j :: 0 <= j < |after| ==> !StartsWith(after[j], fileId)
    ensures var listing := before + [fileId + "." + ext] + after;
      && FirstWithPrefix(listing, fileId) == Some(|before|)
      && FirstWithPrefix(RemoveAt(listing, |before|), fileId).None?
  {
    var name := fileId + "." + ext;
    var listing := before + [name] + after;
    assert StartsWith(name, fileId);
    FirstMatchAt(listing, fileId, |before|);
    assert RemoveAt(listing, |before|) == before + after;
  }
}
