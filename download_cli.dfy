/** The command-line front ends `download_channel.py` and
    `download_playlist.py`: how the argument becomes a URL (and, for a
    channel, a subfolder), and the exit code. The download itself is an
    oracle returning the per-video results or an exception. */
module DownloadCli {
  import opened Wrappers
  import opened Text

  const YoutubeRoot := "https://www.youtube.com/"

  /** Where a channel's videos are fetched from, and the subfolder they go to. */
  datatype ChannelTarget = ChannelTarget(url: string, subfolder: Option<string>)

  const ChannelRequired := "Channel handle or ID is required"
  const InvalidChannel := "Invalid channel format. Use @handle, channel ID (UCxxxxxx), or full URL"

  /** `s` up to its first `c`: `s.split(c)[0]`. */
  function UpTo(s: string, c: char): (r: string)
    ensures StartsWith(s, r) && forall i :: 0 <= i < |r| ==> r[i] != c
    ensures |r| < |s| ==> s[|r|] == c
  {
    if s == [] || s[0] == c then [] else [s[0]] + UpTo(s[1..], c)
  }

  /** The text after the first occurrence of `sep`, up to the next '/':
      `url.split(sep)[1].split("/")[0]`, since `sep` starts with '/'. */
  function SegmentAfter(url: string, sep: string): Option<string>
  {
    match Find(url, sep)
    case None => None
    case Some(i) => Some(UpTo(url[i + |sep|..], '/'))
  }

  /** The subfolder the URL form of the argument gets: "@" and the handle
      after "/@", else the id after "/channel/", else none. */
  function UrlSubfolder(url: string): (r: Option<string>)
    ensures Contains(url, "/@") ==> r.Some? && StartsWith(r.value, "@")
    ensures !Contains(url, "/@") && !Contains(url, "/channel/") ==> r.None?
  {
    match SegmentAfter(url, "/@")
    case Some(h) => Some("@" + h)
    case None => SegmentAfter(url, "/channel/")
  }

  /** The URL form of the argument, ending in "/videos". */
  function VideosUrl(channel: string): (r: string)
    ensures EndsWith(r, "/videos")
  {
    if EndsWith(channel, "/videos") then channel else TrimRight(channel, '/') + "/videos"
  }

  /** The classification in `main` of `download_channel.py`. */
  function ClassifyChannel(arg: string): (r: Result<ChannelTarget, string>)
    ensures arg == "" ==> r == Failure(ChannelRequired)
    ensures r.Success? ==> EndsWith(r.value.url, "/videos")
    ensures arg != "" && StartsWith(Strip(arg), "@") ==>
      r == Success(ChannelTarget(YoutubeRoot + Strip(arg) + "/videos", Some(Strip(arg))))
    ensures arg != "" && !StartsWith(Strip(arg), "@") && StartsWith(Strip(arg), "UC") && |Strip(arg)| == 24 ==>
      r == Success(ChannelTarget(YoutubeRoot + "channel/" + Strip(arg) + "/videos", Some(Strip(arg))))
    ensures arg != "" && !StartsWith(Strip(arg), "@") && !(StartsWith(Strip(arg), "UC") && |Strip(arg)| == 24) ==>
      if Contains(Strip(arg), "youtube.com")
      then r == Success(ChannelTarget(VideosUrl(Strip(arg)), UrlSubfolder(VideosUrl(Strip(arg)))))
      else r == Failure(InvalidChannel)
  {
    if arg == "" then Failure(ChannelRequired)
    else
      var channel := Strip(arg);
      if StartsWith(channel, "@") then
        Success(ChannelTarget(YoutubeRoot + channel + "/videos", Some(channel)))
      else if StartsWith(channel, "UC") && |channel| == 24 then
        Success(ChannelTarget(YoutubeRoot + "channel/" + channel + "/videos", Some(channel)))
      else if Contains(channel, "youtube.com") then
        var url := VideosUrl(channel);
        Success(ChannelTarget(url, UrlSubfolder(url)))
      else Failure(InvalidChannel)
  }

  lemma StripEnds(s: string)
    requires s != [] && !IsSpace(s[0]) && !IsSpace(s[|s| - 1])
    ensures Strip(s) == s
  {
  }

  /** The first occurrence found is the first one there is. */
  lemma FindFirst(s: string, sub: string, i: nat)
    requires OccursAt(s, sub, i) && forall j :: 0 <= j < i ==> !OccursAt(s, sub, j)
    ensures Find(s, sub) == Some(i)
  {
  }

  /** A URL (starting with 'h') that names youtube.com and already ends with
      "/videos" is classified to itself. */
  lemma {:induction false} VideosUrlClassified(url: string)
    requires |url| > 0 && url[0] == 'h' && EndsWith(url, "/videos") && Contains(url, "youtube.com")
    ensures ClassifyChannel(url) == Success(ChannelTarget(url, UrlSubfolder(url)))
  {
    assert url[|url| - 1] == "/videos"[6];
    StripEnds(url);
    assert !StartsWith(url, "@") && !StartsWith(url, "UC");
  }

  /** The URL a handle, a channel id or an https URL is classified to
      classifies to itself. */
  lemma {:induction false} ChannelUrlFixedPoint(arg: string)
    requires ClassifyChannel(arg).Success?
    requires StartsWith(Strip(arg), "@") || (StartsWith(Strip(arg), "UC") && |Strip(arg)| == 24)
             || StartsWith(Strip(arg), "https://")
    ensures ClassifyChannel(ClassifyChannel(arg).value.url).Success?
    ensures ClassifyChannel(ClassifyChannel(arg).value.url).value.url == ClassifyChannel(arg).value.url
  {
    var c := Strip(arg);
    if StartsWith(c, "@") || (StartsWith(c, "UC") && |c| == 24) {
      var x := ClassifiedPage(arg);
      RootUrlClassified(x);
    } else {
      HttpsFixedPoint(arg);
    }
  }

  /** A handle or a channel id is classified to a page under the YouTube root. */
  lemma ClassifiedPage(arg: string) returns (x: string)
    requires arg != ""
    requires StartsWith(Strip(arg), "@") || (StartsWith(Strip(arg), "UC") && |Strip(arg)| == 24)
    ensures ClassifyChannel(arg).Success? && ClassifyChannel(arg).value.url == YoutubeRoot + x + "/videos"
  {
    var c := Strip(arg);
    if StartsWith(c, "@") {
      x := c;
    } else {
      x := "channel/" + c;
      assert YoutubeRoot + "channel/" + c + "/videos" == YoutubeRoot + x + "/videos";
    }
  }

  /** The completed form of an https URL classifies to itself. */
  lemma {:induction false} HttpsFixedPoint(arg: string)
    requires ClassifyChannel(arg).Success? && StartsWith(Strip(arg), "https://")
    requires !StartsWith(Strip(arg), "@") && !(StartsWith(Strip(arg), "UC") && |Strip(arg)| == 24)
    ensures ClassifyChannel(ClassifyChannel(arg).value.url).Success?
    ensures ClassifyChannel(ClassifyChannel(arg).value.url).value.url == ClassifyChannel(arg).value.url
  {
    var c := Strip(arg);
    assert Contains(c, "youtube.com");
    var url := VideosUrl(c);
    assert ClassifyChannel(arg).value.url == url;
    VideosUrlKeeps(c);
    VideosUrlClassified(url);
  }

  /** A page under the YouTube root ending in "/videos" classifies to itself. */
  lemma {:induction false} RootUrlClassified(x: string)
    ensures ClassifyChannel(YoutubeRoot + x + "/videos")
         == Success(ChannelTarget(YoutubeRoot + x + "/videos", UrlSubfolder(YoutubeRoot + x + "/videos")))
  {
    var url := YoutubeRoot + x + "/videos";
    assert url[..|YoutubeRoot|] == YoutubeRoot;
    assert url[12..23] == YoutubeRoot[12..23];
    ContainsAt(url, "youtube.com", 12);
    assert url[|url| - 7..] == "/videos";
    VideosUrlClassified(url);
  }

  /** Completing an https URL keeps its start and its "youtube.com". */
  lemma {:induction false} VideosUrlKeeps(c: string)
    requires StartsWith(c, "https://") && Contains(c, "youtube.com")
    ensures VideosUrl(c)[0] == 'h' && Contains(VideosUrl(c), "youtube.com")
  {
    var url := VideosUrl(c);
    assert c[0] == 'h' by {
      assert c[0] == c[..8][0];
    }
    ContainsWitness(c, "youtube.com");
    var i: nat :| OccursAt(c, "youtube.com", i);
    if !EndsWith(c, "/videos") {
      var t := TrimRight(c, '/');
      TrimRightKeepsOccurrence(c, '/', "youtube.com", i);
      assert url == t + "/videos";
      assert url[i..i + 11] == t[i..i + 11];
      ContainsAt(url, "youtube.com", i);
      assert url[0] == t[0] == c[0];
    } else {
      ContainsAt(url, "youtube.com", i);
    }
  }

  /** Dropping trailing copies of `c` keeps an occurrence of a word that does not end with `c`. */
  lemma {:induction false} TrimRightKeepsOccurrence(s: string, c: char, w: string, i: nat)
    requires OccursAt(s, w, i) && w != [] && w[|w| - 1] != c
    ensures OccursAt(TrimRight(s, c), w, i) && StartsWith(s, TrimRight(s, c))
    ensures |TrimRight(s, c)| >= i + |w|
    decreases |s|
  {
    if s != [] && s[|s| - 1] == c {
      assert s[i + |w| - 1] == w[|w| - 1];
      assert i + |w| < |s|;
      TrimRightKeepsOccurrence(s[..|s| - 1], c, w, i);
      assert s[..|s| - 1][i..i + |w|] == s[i..i + |w|];
    }
  }

  /** The channel page of a handle without '/' is classified to the same
      page and to the handle's own subfolder. */
  lemma {:induction false} HandleUrlRoundTrip(handle: string)
    requires StartsWith(handle, "@")
    requires forall k :: 0 <= k < |handle| ==> handle[k] != '/'
    ensures ClassifyChannel(YoutubeRoot + handle + "/videos")
         == Success(ChannelTarget(YoutubeRoot + handle + "/videos", Some(handle)))
  {
    RootUrlClassified(handle);
    HandleSubfolder(handle);
  }

  lemma {:induction false} HandleSubfolder(handle: string)
    requires StartsWith(handle, "@")
    requires forall k :: 0 <= k < |handle| ==> handle[k] != '/'
    ensures UrlSubfolder(YoutubeRoot + handle + "/videos") == Some(handle)
  {
    var url := YoutubeRoot + handle + "/videos";
    assert url[23] == YoutubeRoot[23] == '/' && url[24] == handle[0] == '@';
    assert url[23..25] == "/@";
    assert forall i :: 0 <= i < |YoutubeRoot| ==> YoutubeRoot[i] != '@';
    forall j | 0 <= j < 23 ensures !OccursAt(url, "/@", j) {
      assert url[j + 1] == YoutubeRoot[j + 1] != '@';
      assert url[j..j + 2] != "/@" by {
        assert url[j..j + 2][1] == url[j + 1];
      }
    }
    FindFirst(url, "/@", 23);
    assert url[25..] == handle[1..] + "/videos";
    UpToStops(handle[1..], "/videos");
    assert "@" + handle[1..] == handle;
  }

  lemma {:induction false} UpToStops(a: string, b: string)
    requires forall k :: 0 <= k < |a| ==> a[k] != '/'
    requires b != [] && b[0] == '/'
    ensures UpTo(a + b, '/') == a
  {
    if a != [] {
      assert (a + b)[1..] == a[1..] + b;
      UpToStops(a[1..], b);
      assert a == [a[0]] + a[1..];
    } else {
      assert a + b == b;
    }
  }

  const PlaylistRequired := "Playlist URL is required"
  const InvalidPlaylist := "Invalid playlist URL. Must contain 'list=' parameter or be a playlist ID starting with 'PL'"

  /** The URL normalisation in `main` of `download_playlist.py`. Python's
      `lower()` and the ASCII `Lower` agree on whether "list=" occurs. */
  function NormalizePlaylist(arg: string): (r: Result<string, string>)
    ensures arg == "" ==> r == Failure(PlaylistRequired)
    ensures arg != "" && StartsWith(arg, "PL") && !Contains(arg, "youtube.com") ==>
      r == Success(YoutubeRoot + "playlist?list=" + arg)
    ensures arg != "" && !(StartsWith(arg, "PL") && !Contains(arg, "youtube.com")) ==>
      r == if Contains(Lower(arg), "list=") then Success(arg) else Failure(InvalidPlaylist)
  {
    if arg == "" then Failure(PlaylistRequired)
    else if StartsWith(arg, "PL") && !Contains(arg, "youtube.com") then Success(YoutubeRoot + "playlist?list=" + arg)
    else if !Contains(Lower(arg), "list=") then Failure(InvalidPlaylist)
    else Success(arg)
  }

  /** Normalising is idempotent: an accepted URL is accepted unchanged. */
  lemma {:induction false} NormalizePlaylistIdempotent(arg: string)
    requires NormalizePlaylist(arg).Success?
    ensures NormalizePlaylist(NormalizePlaylist(arg).value) == NormalizePlaylist(arg)
  {
    var url := NormalizePlaylist(arg).value;
    if url != arg {
      var prefix := YoutubeRoot + "playlist?list=";
      assert url == prefix + arg;
      assert url[0] == 'h';
      assert !StartsWith(url, "PL");
      assert |prefix| == 38;
      assert Lower(url)[33..38] == "list=" by {
        assert url[33..38] == "list=";
      }
      ContainsAt(Lower(url), "list=", 33);
    }
  }

  /** A playlist id becomes the playlist page of that id. */
  lemma PlaylistIdUrl(id: string)
    requires StartsWith(id, "PL") && !Contains(id, "youtube.com")
    ensures NormalizePlaylist(id) == Success("https://www.youtube.com/playlist?list=" + id)
  {
    assert YoutubeRoot + "playlist?list=" + id == "https://www.youtube.com/playlist?list=" + id;
  }

  /** One download result; only its status decides the exit code. */
  datatype VideoResult = VideoResult(videoId: string, title: string, status: string, error: Option<string>)

  /** The results whose status is "failed". */
  function FailedResults(results: seq<VideoResult>): (r: seq<VideoResult>)
    ensures |r| <= |results|
    ensures forall v :: v in r <==> v in results && v.status == "failed"
  {
    if results == [] then []
    else (if results[0].status == "failed" then [results[0]] else []) + FailedResults(results[1..])
  }

  /** `0 if not failed else 1`. */
  function ResultsExitCode(results: seq<VideoResult>): (code: int)
    ensures code == 0 <==> forall k :: 0 <= k < |results| ==> results[k].status != "failed"
    ensures code == 0 || code == 1
  {
    if FailedResults(results) == [] then 0
    else
      var v := FailedResults(results)[0];
      assert v in results;
      1
  }

  /** The exit code of `download_channel.py`: 1 for an argument it rejects
      or a download that raises, otherwise whether no video failed. */
  function ChannelExitCode(arg: string, download: ChannelTarget -> Result<seq<VideoResult>, string>): (code: int)
    ensures code == 0 <==>
      ClassifyChannel(arg).Success? && download(ClassifyChannel(arg).value).Success?
      && forall k :: 0 <= k < |download(ClassifyChannel(arg).value).value| ==>
           download(ClassifyChannel(arg).value).value[k].status != "failed"
  {
    match ClassifyChannel(arg)
    case Failure(_) => 1
    case Success(t) =>
      match download(t)
      case Failure(_) => 1
      case Success(results) => ResultsExitCode(results)
  }

  /** The exit code of `download_playlist.py`. */
  function PlaylistExitCode(arg: string, download: string -> Result<seq<VideoResult>, string>): (code: int)
    ensures code == 0 <==>
      NormalizePlaylist(arg).Success? && download(NormalizePlaylist(arg).value).Success?
      && forall k :: 0 <= k < |download(NormalizePlaylist(arg).value).value| ==>
           download(NormalizePlaylist(arg).value).value[k].status != "failed"
  {
    match NormalizePlaylist(arg)
    case Failure(_) => 1
    case Success(url) =>
      match download(url)
      case Failure(_) => 1
      case Success(results) => ResultsExitCode(results)
  }
}
