# noltek video downloader: a Dafny model

noltek wraps the yt-dlp library behind two front ends:

- **The downloader bot** (`downloader.py`). `VideoDownloaderBot.download_single_video` turns a URL, an output directory, a format choice (`mp4` or `mp3`) and an optional resolution choice into a yt-dlp option dictionary, runs the download, and returns the absolute path of the file it reports. `main` is a console loop: it queues the URLs typed one per line; on `go` it asks for a format (and, for mp4, a resolution) and downloads the first ten queued URLs; on `exit` or `quit` it stops.
- **The HTTP service** (`app.py`). `/formats` lists the formats of a video that are worth offering: mp4 or mp3 at 480p, 720p, 1080p, 1440p or 2160p, or audio only. `/download` validates a request and downloads under a fresh file id. `/download/<file_id>` sends the first stored file whose name begins with that id and deletes it afterwards.

The model has seven modules:

- `Wrappers`: an `Option` type.
- `Text`: the parts of Python's `str` that the code uses.
- `Paths`: `os.path.join` and `os.path.abspath`.
- `Ytdlp`: the option and information-dictionary values exchanged with yt-dlp.
- `Downloader`: `download_single_video`.
- `DownloaderMain`: `main`.
- `App`: app.py.

yt-dlp is never modelled as code. Each `extract_info` call is an `Extraction` value given to the model as a parameter: either the information dictionary or the exception raised (`DownloadError` or any other). Other inputs are parameters too:

- the working directory used by `abspath`;
- the typed input lines;
- the directory listing;
- the `uuid4` file id;
- whether deleting a served file succeeded.

Imperative code stays imperative:

- the option dictionary is built key by key (`Downloader.SelectOptions`);
- the console loop and the resolution prompt are `while` loops (`DownloaderMain.RunSession`, `DownloaderMain.AskResolution`);
- the format filter and the listing search are `for` loops (`App.FilterFormats`, `App.FindFile`);
- the download folder is a class whose listing `App.Downloads.ServeFile` updates.

Each loop is proved against a recursive function (`Session`, `ResolutionAnswer`, `Filtered`, `FirstWithPrefix`), and the properties are lemmas about those functions.

The code keeps no job registry: it has no job status to poll and no sweep that removes old files. Files are delivered once only through the delete-after-serve of `serve_file`:

- `App.ServedOnce` and `App.FreshFileServedOnce` prove at-most-once delivery for an id that only one stored name begins with.
- That property depends on the id being a unique prefix, because the lookup is `startswith`.

At `downloader.py:64`, `return full_path` stands at column 0, so the file as written does not parse. The model follows the evidently intended indentation: the absolute path is returned on success, and `None` is returned from either `except` branch (`downloader.py:66-71`).

Some edge cases the model keeps:

- A blank answer to the resolution prompt leaves `resolution_choice` as `""` (not `None`), which the bot then treats as "best quality".
- URLs queued beyond the tenth are dropped when `go` resets the queue.
- A listed format without `format_id` raises `KeyError` inside the `try`. The whole `/formats` request then fails with 500 and message `'format_id'`.
- An audio-only format is always listed as `mp3`, whatever its real container.

## Model

| member | source | states |
|---|---|---|
| `Text.StripSpec` | downloader.py:98 | `strip()` returns the slice of the line that starts and ends with a non-space, and everything cut off on either side is white space (Python's `isspace` set) |
| `Text.NatToStringRoundTrip` | downloader.py:43 | the decimal text of a height reads back as that height, so distinct heights print differently |
| `Text.IntToStringInjective` | app.py:31 | `f"{height}"` of two different integers gives two different strings, negative numbers included |
| `Paths.Join` | downloader.py:26 | `os.path.join(a, b)` ends with `b`; an absolute `b` replaces `a`; otherwise exactly one separator is put between them unless `a` is empty or already ends with one |
| `Paths.AbsPath` | downloader.py:61 | the result is absolute and ends with the given path |
| `Downloader.RequestedHeight` | downloader.py:39-42 | a resolution choice yields a height exactly when it is given and its lower-cased form is a key of the height table (480p, 720p, 1080p, 2k, 4k); the height is then that key's own entry of the table, one of 480, 720, 1080, 1440, 2160 (all non-zero, so the truth test on it never discards a found key) |
| `Downloader.RequestedHeightIgnoresCase` | downloader.py:41 | a choice and its lower-cased form request the same height |
| `Downloader.CappedSelectorRoundTrip` | downloader.py:43 | the selector `bestvideo[height<=H]+bestaudio/best` carries exactly the cap H it was built from |
| `Downloader.UncappedSelectors` | downloader.py:34 | the audio selector and `bestvideo+bestaudio/best` carry no height cap |
| `Downloader.SelectOptions` | downloader.py:25-53 | the options in every case: playlists off, 5 retries, the progress hook, `cookies.txt`. For mp3: `bestaudio/best`, exactly one `FFmpegExtractAudio` step (mp3, quality 192), template `<dir>/%(title)s.mp3`, no merge format. For anything else: template `<dir>/%(title)s.%(ext)s`, merge to mp4, and a selector whose cap is the requested height (capped selector) or none (`bestvideo+bestaudio/best`) |
| `Downloader.FinalExtension` | downloader.py:59 | the reported extension is `mp3` exactly when the format choice is `mp3`, and `mp4` otherwise |
| `Downloader.FinalName` | downloader.py:58-60 | the reported name begins with the title and ends with `.` and that extension |
| `Downloader.FinalPath` | downloader.py:60-61 | the reported path is absolute and ends with the output directory joined to the reported name, so it ends with that name |
| `Downloader.DownloadSingleVideo` | downloader.py:15-71 | an empty URL returns `None` and builds no options. Otherwise the options are those of `SelectOptions`. A path is returned exactly when extraction succeeded: the absolute form of `os.path.join(<dir>, <title>.<ext>)`, which ends with that join, with title `Unknown Title` when the dictionary has none. Either exception gives `None` |
| `DownloaderMain.ResolutionAnswer` | downloader.py:109-114 | the resolution prompt ends at the first blank or key answer (480p, 720p, 1080p, 2k, 4k after strip and lower-casing) and returns that answer; every earlier answer was rejected; with no accepted answer the input runs out |
| `DownloaderMain.AskResolution` | downloader.py:105-114 | the prompt loop returns the answer `ResolutionAnswer` describes and resumes reading after it |
| `DownloaderMain.BatchOf` | downloader.py:117 | a batch is the prefix of the queue of length min(10, queue length) |
| `DownloaderMain.RunSession` | downloader.py:96-139 | the console loop produces exactly the batches, final queue and stop reason of `Session` |
| `DownloaderMain.UrlLinesQueued` | downloader.py:137-139 | lines that are neither blank nor a command are appended to the queue, each once, stripped, in the order typed |
| `DownloaderMain.UrlLinesOnly` | downloader.py:96-139 | a session of URL lines alone ends with all of them queued and nothing handed over |
| `DownloaderMain.QueueThenGo` | downloader.py:102-134 | after URLs, `go` and a non-mp4 format, the first ten of those URLs are handed over, in order, with that format and no resolution, and the session goes on with an empty queue |
| `DownloaderMain.GoWithEmptyQueue` | downloader.py:135-136 | `go` with an empty queue reads no prompt and hands nothing over |
| `DownloaderMain.QuitEndsSession` | downloader.py:98-101 | `exit` or `quit`, in any case and with surrounding white space, ends the session at once with the queue unsent |
| `DownloaderMain.ChoicesOk` | downloader.py:104-114 | the prompts after `go` give a resolution exactly for mp4, and a non-blank one is a key of the bot's height table |
| `DownloaderMain.SessionBatchesOk` | downloader.py:96-139 | every batch handed over holds 1 to 10 stripped, non-blank URLs; it has a resolution exactly when its format is mp4, and a non-blank resolution always makes the bot cap the height |
| `App.HeightLabelListed` | app.py:31-39 | a video height label is listed exactly for heights 480, 720, 1080, 1440 and 2160; a missing or zero height (`unknown`) never is |
| `App.KeepIff` | app.py:29-39 | a format is listed exactly when it is video (any `vcodec` but `none`, a missing one included) of a listed height with its own ext mp4 or mp3, or it has an audio codec and `vcodec == 'none'` |
| `App.NoCodecsSkipped` | app.py:33-37 | a format whose two codecs are both `none` is skipped |
| `App.FilteredAbortsIff` | app.py:39-41 | the format loop fails exactly when some format to be listed has no `format_id` |
| `App.FilterFormats` | app.py:26-44 | the loop computes `Filtered`: the listed entries in order, or the `KeyError` abort |
| `App.FilteredSpec` | app.py:27-44 | the list is an order-preserving subsequence of the formats; it has one entry per listed format (so it is no longer than the input); every entry has a listed resolution, ext mp4 or mp3, and its format's `format_id` |
| `App.GetFormats` | app.py:16-48 | no URL gives 400 whatever the extraction would do; an extraction exception gives 500 with its message; otherwise 200 with the filtered list, or 500 `'format_id'` |
| `App.OptionsFor` | app.py:59-71 | the format is the requested `format_id`; the template is `downloads/<file_id>.%(ext)s`; the post-processor list is non-empty exactly for `mp3`, and is then one `FFmpegExtractAudio` step to mp3 |
| `App.DownloadVideo` | app.py:51-82 | a missing URL or `format_id` gives 400 before any option reaches yt-dlp; an extraction exception gives 500 with its message; success reports the file id with ext `mp3` for an mp3 request and yt-dlp's own ext otherwise |
| `App.FirstWithPrefix` | app.py:86-87 | the position found is that of the first listed name starting with the id; none is found exactly when no name starts with it |
| `App.FindFile` | app.py:86-88 | the scan of the listing finds the position `FirstWithPrefix` describes |
| `App.FoundIffCounted` | app.py:86-100 | a request gets 404 exactly when no stored name begins with its id |
| `App.RemovingServed` | app.py:90-96 | removing the served file leaves one fewer name with that prefix, and in a listing without duplicates the served name is gone |
| `App.Downloads.ServeFile` | app.py:85-100 | the first name starting with the id is sent as `downloads/<name>` and removed from the listing (kept when removal fails); with no match the reply is 404 and the listing is unchanged; the folder keeps its names distinct, and a removed name is no longer listed |
| `App.ServedOnce` | app.py:86-100 | when one stored name begins with the id, the first request is served and a repeated request after the removal gets 404 |
| `App.FreshFileServedOnce` | app.py:86-98 | the file `<file_id>.<ext>` of a fresh id is served wherever it is listed, and after its removal the id finds nothing |

## Left out

- yt-dlp itself (format selection, downloading, FFmpeg conversion): each `extract_info` call is an `Extraction` parameter, because the library is foreign code.
- `download_progress_hook` and all console and log output: they only print (the hook's percentages are floating point); the options record only notes that the hook is installed.
- `os.makedirs` at `downloader.py:21-23` and `app.py:13`: directory creation is a filesystem effect left out. At `downloader.py:21-22` it runs before the `try` and without `exist_ok`, so a failure (no permission, or `FileExistsError` when two of `main`'s threads both find `downloads/` missing) escapes `download_single_video` instead of returning `None`. `Downloader.DownloadSingleVideo` does not model that uncaught error path.
- The threads of `main` and backend.py: a batch is modelled as the sequence of URLs handed to the downloader together with its format and resolution. What the downloads return is discarded by the source anyway.
- backend.py: it is Flask wiring around `download_single_video`, a `not url` check and a uuid folder name; gunicorn.conf.py is configuration only.
- Flask routing, CORS, JSON encoding, `send_file`'s streaming and `/health`: a reply is a `Reply` value whose constructor stands for the status code.
- A request body that is not JSON, or a `url` that is not a string: the model takes the fields as optional strings.
- Keys present with value `None`, and float heights: the information dictionary is modelled with string titles and integer heights, and `None` stands for an absent key. The model therefore does not capture three cases:
  - a present `title: None` is reported as the title `None` by the source;
  - a present `format_id: None` on a listed format gives an entry with a null id in the source, where `App.Filtered` aborts with 500 `'format_id'`;
  - a present `formats: None` makes the source's loop raise `TypeError` (500), where `App.GetFormats` replies 200 with an empty list.
- Concurrent requests racing on the same file: the model serves requests one at a time.
- Job registry, status polling and an age-based sweep: the code has none of them, so neither does the model.
- `Paths.AbsPath`: does not apply `os.path.normpath`, so `.`, `..` and doubled separators in the joined path are not collapsed.
- `Text.ToLower`: lower-cases ASCII letters only, where Python's `str.lower` is Unicode-aware. This matters only for a non-ASCII character that lowers onto one of the ASCII command or resolution names.
- `Downloader.DownloadSingleVideo`: takes the URL as a string; a `None` URL, which the source refuses in the same way, is the empty string here.
