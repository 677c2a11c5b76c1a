/** The part of the yt-dlp library's interface that the services touch:
    option values they pass in and the information dictionary they get back.
    The library itself is not modelled; a call to `extract_info` is an
    `Extraction` value supplied by the caller of the model. */
module Ytdlp {
  import opened Wrappers

  /** One entry of the `postprocessors` option. */
  datatype Postprocessor = Postprocessor(key: string, preferredCodec: string, preferredQuality: Option<string>)

  /** One entry of `info['formats']`; every key may be absent. */
  datatype FormatRecord = FormatRecord(
    formatId: Option<string>,
    vcodec: Option<string>,
    acodec: Option<string>,
    height: Option<int>,
    ext: Option<string>)

  /** The keys of the information dictionary that the services read. */
  datatype InfoDict = InfoDict(title: Option<string>, ext: Option<string>, formats: Option<seq<FormatRecord>>)

  /** The outcome of one `extract_info` call: the dictionary, or the
      exception it raised (`yt_dlp.utils.DownloadError` or any other). */
  datatype Extraction =
    | Extracted(info: InfoDict)
    | DownloadError(message: string)
    | UnexpectedError(message: string)
}
