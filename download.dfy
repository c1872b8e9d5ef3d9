/** `YouTubeDownloadService` of `services/youtube_download_service.py`: the
    yt-dlp format selector and the arguments `download_video` and
    `get_video_info` hand to yt-dlp. yt-dlp itself is an oracle. */
module Download {
  import opened Wrappers
  import opened Text
  import Bluesky

  /** The fallback chain every selector ends with. */
  const BestChain := "bestvideo[ext=mp4]+bestaudio[ext=m4a]/bestvideo+bestaudio/best[ext=mp4]/best"

  /** The resolutions that get a height cap. */
  const CappedResolutions: seq<string> := ["720p", "1080p", "480p", "360p"]

  /** `resolution.replace("p", "")`. */
  function Height(resolution: string): string
  {
    RemoveChar(resolution, 'p')
  }

  /** `_get_format_selector`. */
  function FormatSelector(resolution: string): (r: string)
    ensures resolution == "best" ==> r == BestChain
    ensures resolution in CappedResolutions ==>
      r == "bestvideo[height<=" + Height(resolution) + "][ext=mp4]+bestaudio[ext=m4a]/bestvideo[height<="
           + Height(resolution) + "]+bestaudio/" + BestChain
    ensures resolution != "best" && resolution !in CappedResolutions ==> r == resolution + "/" + BestChain
  {
    if resolution == "best" then BestChain
    else if resolution in CappedResolutions then
      var h := Height(resolution);
      "bestvideo[height<=" + h + "][ext=mp4]+bestaudio[ext=m4a]/bestvideo[height<=" + h + "]+bestaudio/" + BestChain
    else resolution + "/" + BestChain
  }

  /** Removing `c` from a string without it, followed by `c`, gives the string back. */
  lemma {:induction false} RemoveTrailing(d: string, c: char)
    requires forall i :: 0 <= i < |d| ==> d[i] != c
    ensures RemoveChar(d + [c], c) == d
  {
    if d == [] {
      assert RemoveChar([c], c) == [] + RemoveChar([], c);
    } else {
      assert (d + [c])[1..] == d[1..] + [c];
      RemoveTrailing(d[1..], c);
    }
  }

  /** The height caps are the resolutions' numbers. */
  lemma CappedHeights()
    ensures Height("720p") == "720" && Height("1080p") == "1080"
    ensures Height("480p") == "480" && Height("360p") == "360"
  {
    assert "720p" == "720" + ['p'] && "1080p" == "1080" + ['p'];
    assert "480p" == "480" + ['p'] && "360p" == "360" + ['p'];
    RemoveTrailing("720", 'p');
    RemoveTrailing("1080", 'p');
    RemoveTrailing("480", 'p');
    RemoveTrailing("360", 'p');
  }

  /** Every selector ends with the full "best" chain, and for anything but
      "best" the chain is a proper suffix, after a '/'. */
  lemma BestChainIsFallback(resolution: string)
    ensures EndsWith(FormatSelector(resolution), BestChain)
    ensures resolution != "best" ==>
      var r := FormatSelector(resolution);
      |r| > |BestChain| && r[|r| - |BestChain| - 1] == '/'
  {
    var r := FormatSelector(resolution);
    assert r[|r| - |BestChain|..] == BestChain;
  }

  /** A selector that is not "best" or capped is tried first, with all its
      own alternatives, before the chain's. */
  lemma {:induction false} RequestedAlternativesFirst(resolution: string)
    requires resolution != "best" && resolution !in CappedResolutions
    ensures |SplitOn(FormatSelector(resolution), '/')| == |SplitOn(resolution, '/')| + |SplitOn(BestChain, '/')|
  {
    CountCharAppend(resolution + "/", BestChain, '/');
    CountCharAppend(resolution, "/", '/');
  }

  /** The service's defaults, set at construction. */
  datatype DownloadService = DownloadService(defaultOutputPath: string, defaultResolution: string)

  /** `YouTubeDownloadService()` with no arguments. */
  const DefaultService := DownloadService(".", "best")

  /** The options `download_video` hands to yt-dlp. */
  datatype DownloadRequest = DownloadRequest(url: string, outputTemplate: string, format: string, mergeOutputFormat: string)

  /** The errors the service raises: `ValueError` for an empty id, and a
      wrapped yt-dlp failure. */
  datatype DownloadError = InvalidId(message: string) | Failed(message: string)

  function WatchUrl(videoId: string): string
  {
    "https://www.youtube.com/watch?v=" + videoId
  }

  /** A Python `x or default` on an optional string argument. */
  function OrDefault(x: Option<string>, default: string): (r: string)
    ensures (x.Some? && x.value != "") ==> r == x.value
    ensures !(x.Some? && x.value != "") ==> r == default
  {
    if x.Some? && x.value != "" then x.value else default
  }

  /** The arguments of `download_video`, checked and defaulted. */
  function DownloadOptions(service: DownloadService, videoId: string, outputPath: Option<string>,
                           resolution: Option<string>): (r: Result<DownloadRequest, DownloadError>)
    ensures videoId == "" <==> r.Failure?
    ensures videoId == "" ==> r == Failure(InvalidId("Video ID cannot be empty"))
    ensures r.Success? ==>
      var out := OrDefault(outputPath, service.defaultOutputPath);
      && r.value.url == WatchUrl(videoId)
      && r.value.outputTemplate == out + "/" + videoId + ".%(ext)s"
      && r.value.format == FormatSelector(OrDefault(resolution, service.defaultResolution))
      && r.value.mergeOutputFormat == "mp4"
  {
    if videoId == "" then Failure(InvalidId("Video ID cannot be empty"))
    else
      var out := OrDefault(outputPath, service.defaultOutputPath);
      var res := OrDefault(resolution, service.defaultResolution);
      Success(DownloadRequest(WatchUrl(videoId), out + "/" + videoId + ".%(ext)s", FormatSelector(res), "mp4"))
  }

  /** `download_video`; `ytdlp` downloads and returns the prepared file name. */
  function DownloadVideo(service: DownloadService, videoId: string, outputPath: Option<string>, resolution: Option<string>,
                         ytdlp: DownloadRequest -> Result<string, string>): (r: Result<string, DownloadError>)
    ensures videoId == "" ==> r == Failure(InvalidId("Video ID cannot be empty"))
    ensures videoId != "" ==>
      var req := DownloadOptions(service, videoId, outputPath, resolution).value;
      match ytdlp(req)
      case Success(f) => r == Success(f)
      case Failure(e) => r == Failure(Failed("Download failed for video " + videoId + ": " + e))
  {
    match DownloadOptions(service, videoId, outputPath, resolution)
    case Failure(e) => Failure(e)
    case Success(req) =>
      match ytdlp(req)
      case Success(f) => Success(f)
      case Failure(e) => Failure(Failed("Download failed for video " + videoId + ": " + e))
  }

  /** `get_video_info`; `extract` reads the metadata of a URL without downloading. */
  function GetVideoInfo<I>(videoId: string, extract: string -> Result<I, string>): (r: Result<I, DownloadError>)
    ensures videoId == "" ==> r == Failure(InvalidId("Video ID cannot be empty"))
    ensures videoId != "" && extract(WatchUrl(videoId)).Success? ==> r == Success(extract(WatchUrl(videoId)).value)
    ensures videoId != "" && extract(WatchUrl(videoId)).Failure? ==>
      r == Failure(Failed("Failed to get video info for " + videoId + ": " + extract(WatchUrl(videoId)).error))
  {
    if videoId == "" then Failure(InvalidId("Video ID cannot be empty"))
    else match extract(WatchUrl(videoId))
      case Success(info) => Success(info)
      case Failure(e) => Failure(Failed("Failed to get video info for " + videoId + ": " + e))
  }

  /** Without arguments the video goes to `./{id}.%(ext)s` with the "best" chain. */
  lemma DefaultDownload(videoId: string)
    requires videoId != ""
    ensures DownloadOptions(DefaultService, videoId, None, None)
         == Success(DownloadRequest(WatchUrl(videoId), "./" + videoId + ".%(ext)s", BestChain, "mp4"))
  {
    assert "." + "/" + videoId + ".%(ext)s" == "./" + videoId + ".%(ext)s";
  }

  /** The URL fetched carries the id back: the Bluesky service's extractor
      recovers it from that URL. */
  lemma WatchUrlCarriesId(videoId: string)
    requires videoId != [] && forall k :: 0 <= k < |videoId| ==> Bluesky.IsIdChar(videoId[k])
    ensures Bluesky.ExtractVideoId(DownloadOptions(DefaultService, videoId, None, None).value.url) == Some(videoId)
  {
    Bluesky.WatchUrlRoundTrip(videoId);
  }
}
