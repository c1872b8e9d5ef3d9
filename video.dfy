/** The deterministic parts of the video service: which thumbnail of a video's
    metadata is downloaded, and where the shortened `-sm` copy of a video lives
    (and that an existing copy is reused without further work). Trimming,
    intro rendering and duration probing are ffmpeg/MoviePy work and are
    represented only by their outcome. */
module Video {
  import opened Wrappers
  import opened Text
  import opened Paths
  import ObjectStore

  /** One entry of the metadata's `thumbnails` list; `None` is a missing key. */
  datatype Thumbnail = Thumbnail(url: Option<string>, width: Option<int>, height: Option<int>)

  /** The decoded `.json` metadata of a video, reduced to its thumbnails list
      (`None` when the key is absent). */
  datatype VideoMetadata = VideoMetadata(thumbnails: Option<seq<Thumbnail>>)

  /** `"maxresdefault" in thumbnail.get("url", "")`. */
  predicate IsMaxRes(t: Thumbnail)
  {
    Contains(t.url.GetOr(""), "maxresdefault")
  }

  /** `width * height` with a missing dimension counted as 0. */
  function Area(t: Thumbnail): int
  {
    t.width.GetOr(0) * t.height.GetOr(0)
  }

  /** `k` is the thumbnail `download_thumbnail` picks: the first one whose url
      mentions "maxresdefault"; failing that, the first one of largest area
      (Python's `max` keeps the first of equal keys). */
  predicate ChosenThumbnail(thumbnails: seq<Thumbnail>, k: int)
  {
    0 <= k < |thumbnails|
    && ((exists i :: 0 <= i < |thumbnails| && IsMaxRes(thumbnails[i])) ==>
          IsMaxRes(thumbnails[k]) && forall j :: 0 <= j < k ==> !IsMaxRes(thumbnails[j]))
    && ((forall i :: 0 <= i < |thumbnails| ==> !IsMaxRes(thumbnails[i])) ==>
          (forall j :: 0 <= j < |thumbnails| ==> Area(thumbnails[j]) <= Area(thumbnails[k]))
          && (forall j :: 0 <= j < k ==> Area(thumbnails[j]) < Area(thumbnails[k])))
  }

  /** The choice is determined by the list: at most one index is chosen. */
  lemma ChosenThumbnailUnique(thumbnails: seq<Thumbnail>, k1: int, k2: int)
    requires ChosenThumbnail(thumbnails, k1) && ChosenThumbnail(thumbnails, k2)
    ensures k1 == k2
  {
    if exists i :: 0 <= i < |thumbnails| && IsMaxRes(thumbnails[i]) {
      assert IsMaxRes(thumbnails[k1]) && IsMaxRes(thumbnails[k2]);
    } else {
      assert Area(thumbnails[k1]) <= Area(thumbnails[k2]) && Area(thumbnails[k2]) <= Area(thumbnails[k1]);
    }
  }

  /** The first maxresdefault entry at or after position `i`, if any. */
  function FirstMaxRes(thumbnails: seq<Thumbnail>, i: nat): (r: Option<nat>)
    requires i <= |thumbnails|
    ensures r.Some? ==> i <= r.value < |thumbnails|
    decreases |thumbnails| - i
  {
    if i == |thumbnails| then None
    else if IsMaxRes(thumbnails[i]) then Some(i)
    else FirstMaxRes(thumbnails, i + 1)
  }

  /** The first entry of largest area among the first `n`. */
  function LargestAmong(thumbnails: seq<Thumbnail>, n: nat): (r: nat)
    requires 0 < n <= |thumbnails|
    ensures r < n
  {
    if n == 1 then 0
    else
      var k := LargestAmong(thumbnails, n - 1);
      if Area(thumbnails[n - 1]) > Area(thumbnails[k]) then n - 1 else k
  }

  /** The index `download_thumbnail` picks, as a function of the list. */
  function ChosenIndex(thumbnails: seq<Thumbnail>): (r: nat)
    requires thumbnails != []
    ensures r < |thumbnails|
  {
    match FirstMaxRes(thumbnails, 0)
    case Some(i) => i
    case None => LargestAmong(thumbnails, |thumbnails|)
  }

  lemma {:induction false} FirstMaxResFirst(thumbnails: seq<Thumbnail>, i: nat)
    requires i <= |thumbnails|
    ensures var r := FirstMaxRes(thumbnails, i);
      (r.Some? ==> IsMaxRes(thumbnails[r.value]) && forall j :: i <= j < r.value ==> !IsMaxRes(thumbnails[j]))
      && (r.None? ==> forall j :: i <= j < |thumbnails| ==> !IsMaxRes(thumbnails[j]))
    decreases |thumbnails| - i
  {
    if i < |thumbnails| && !IsMaxRes(thumbnails[i]) {
      FirstMaxResFirst(thumbnails, i + 1);
    }
  }

  lemma {:induction false} LargestAmongLargest(thumbnails: seq<Thumbnail>, n: nat)
    requires 0 < n <= |thumbnails|
    ensures var k := LargestAmong(thumbnails, n);
      (forall j :: 0 <= j < n ==> Area(thumbnails[j]) <= Area(thumbnails[k]))
      && (forall j :: 0 <= j < k ==> Area(thumbnails[j]) < Area(thumbnails[k]))
  {
    if n > 1 {
      LargestAmongLargest(thumbnails, n - 1);
    }
  }

  /** The reference index satisfies the selection rule. */
  lemma ChosenIndexChosen(thumbnails: seq<Thumbnail>)
    requires thumbnails != []
    ensures ChosenThumbnail(thumbnails, ChosenIndex(thumbnails))
  {
    FirstMaxResFirst(thumbnails, 0);
    if FirstMaxRes(thumbnails, 0).None? {
      LargestAmongLargest(thumbnails, |thumbnails|);
    }
  }

  /** The selection loops of `download_thumbnail`. */
  method ChooseThumbnail(thumbnails: seq<Thumbnail>) returns (k: nat)
    requires thumbnails != []
    ensures ChosenThumbnail(thumbnails, k)
    ensures k == ChosenIndex(thumbnails)
  {
    ChosenIndexChosen(thumbnails);
    var i := 0;
    while i < |thumbnails|
      invariant 0 <= i <= |thumbnails|
      invariant forall j :: 0 <= j < i ==> !IsMaxRes(thumbnails[j])
    {
      if IsMaxRes(thumbnails[i]) {
        ChosenThumbnailUnique(thumbnails, i, ChosenIndex(thumbnails));
        return i;
      }
      i := i + 1;
    }
    k := 0;
    var j := 1;
    while j < |thumbnails|
      invariant 1 <= j <= |thumbnails| && k < j
      invariant forall m :: 0 <= m < j ==> Area(thumbnails[m]) <= Area(thumbnails[k])
      invariant forall m :: 0 <= m < k ==> Area(thumbnails[m]) < Area(thumbnails[k])
    {
      if Area(thumbnails[j]) > Area(thumbnails[k]) {
        k := j;
      }
      j := j + 1;
    }
    ChosenThumbnailUnique(thumbnails, k, ChosenIndex(thumbnails));
  }

  /** The HTTP request for one thumbnail: `None` when the entry has no url
      (the `KeyError` the source catches) or the request fails. */
  function FetchThumbnail(t: Thumbnail, fetch: string -> Option<ObjectStore.Bytes>): Option<ObjectStore.Bytes>
  {
    if t.url.Some? then fetch(t.url.value) else None
  }

  /** What `download_thumbnail` gives for `metadata`: nothing for no
      thumbnails, else the fetch of the chosen one. */
  function ThumbnailBytes(metadata: VideoMetadata, fetch: string -> Option<ObjectStore.Bytes>): Option<ObjectStore.Bytes>
  {
    var thumbnails := metadata.thumbnails.GetOr([]);
    if thumbnails == [] then None else FetchThumbnail(thumbnails[ChosenIndex(thumbnails)], fetch)
  }

  /** `ThumbnailBytes` is the fetch of whichever entry the selection rule chooses. */
  lemma ThumbnailBytesChosen(metadata: VideoMetadata, fetch: string -> Option<ObjectStore.Bytes>, k: int)
    requires ChosenThumbnail(metadata.thumbnails.GetOr([]), k)
    ensures ThumbnailBytes(metadata, fetch) == FetchThumbnail(metadata.thumbnails.GetOr([])[k], fetch)
  {
    var thumbnails := metadata.thumbnails.GetOr([]);
    ChosenIndexChosen(thumbnails);
    ChosenThumbnailUnique(thumbnails, k, ChosenIndex(thumbnails));
  }

  /** `download_thumbnail`: the bytes of the chosen thumbnail `k`, fetched by
      `fetch`; `None` for no thumbnails. */
  method DownloadThumbnail(metadata: VideoMetadata, fetch: string -> Option<ObjectStore.Bytes>)
    returns (r: Option<ObjectStore.Bytes>, ghost k: int)
    ensures metadata.thumbnails.GetOr([]) == [] ==> r == None
    ensures var thumbnails := metadata.thumbnails.GetOr([]);
      thumbnails != [] ==> ChosenThumbnail(thumbnails, k) && r == FetchThumbnail(thumbnails[k], fetch)
    ensures r == ThumbnailBytes(metadata, fetch)
  {
    var thumbnails := metadata.thumbnails.GetOr([]);
    k := 0;
    if thumbnails == [] {
      return None, k;
    }
    var chosen := ChooseThumbnail(thumbnails);
    k := chosen;
    match thumbnails[chosen].url
    case None =>
      r := None;
    case Some(u) =>
      r := fetch(u);
  }

  /** `video_path.with_stem(video_path.stem + "-sm")`, as a string. */
  function SmallVideoPath(videoPath: string): (r: Result<string, string>)
    ensures r.Success? ==>
      var p := ParsePath(videoPath);
      var q := ParsePath(r.value);
      Parent(q) == Parent(p) && Name(q) == Stem(Name(p)) + "-sm" + Suffix(Name(p))
  {
    var p := ParsePath(videoPath);
    match WithStem(p, Stem(Name(p)) + "-sm")
    case Failure(e) => Failure(e)
    case Success(q) =>
      ParseOfPathString(q);
      Success(PathString(q))
  }

  /** What became of a request for the `-sm` copy. */
  datatype SmallVideo = Reused(path: string) | Built(path: string) | NotBuilt

  /** `prepare_video`: an existing `-sm` copy (a member of `existing`) is
      returned as it is; otherwise `built` says whether the ffmpeg pipeline
      produced it. An invalid path raises before anything else. */
  function PrepareVideo(videoPath: string, existing: set<string>, built: bool): (r: Result<SmallVideo, string>)
    ensures r.Success? <==> SmallVideoPath(videoPath).Success?
    ensures r.Success? && SmallVideoPath(videoPath).value in existing ==> r.value == Reused(SmallVideoPath(videoPath).value)
    ensures r.Success? && SmallVideoPath(videoPath).value !in existing ==> r.value != Reused(SmallVideoPath(videoPath).value)
  {
    match SmallVideoPath(videoPath)
    case Failure(e) => Failure(e)
    case Success(out) =>
      if out in existing then Success(Reused(out))
      else if built then Success(Built(out))
      else Success(NotBuilt)
  }

  /** `trim_video_if_needed`, once the source file is known to exist and its
      duration has been compared with the 170-second limit (`longerThanLimit`;
      `None` when the duration could not be read): a short video is not
      trimmed, and an existing `-sm` copy is reused. */
  function TrimVideoIfNeeded(videoPath: string, longerThanLimit: Option<bool>, existing: set<string>, trimmed: bool)
    : (r: Result<SmallVideo, string>)
    ensures longerThanLimit != Some(true) ==> r == Success(NotBuilt)
    ensures longerThanLimit == Some(true) ==> r == PrepareVideo(videoPath, existing, trimmed)
  {
    if longerThanLimit != Some(true) then Success(NotBuilt)
    else PrepareVideo(videoPath, existing, trimmed)
  }
}
