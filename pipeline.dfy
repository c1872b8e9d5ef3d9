/** The resumable video pipeline: `VideoProcessor.process_video` and
    `PlaylistProcessor.process_playlist` of `main.py`, and the older four-stage
    copy `convert_mp4_to_wav_and_transcribe` of `test_minio.py`. A run probes
    which derived files of a video already exist in the bucket, then produces
    only the missing ones, in a fixed order, uploading each as soon as it is
    made; the first failure ends the run. ffmpeg, Whisper, Ollama, JSON
    decoding and the thumbnail request are the `Tools` of the processor. */
module Pipeline {
  import opened Wrappers
  import opened Text
  import opened ObjectStore
  import Paths
  import Video

  /** The derived files of a video, named after the keys of `check_files_exist`. */
  datatype Artifact = Wav | Txt | Analysis | Linkedin | Bluesky | Json | Thumbnail | SmallVideo

  function FileSuffix(a: Artifact): string
  {
    match a
    case Wav => ".wav"
    case Txt => ".txt"
    case Analysis => "-analysis.txt"
    case Linkedin => "-linkedin.txt"
    case Bluesky => "-bluesky.txt"
    case Json => ".json"
    case Thumbnail => ".webp"
    case SmallVideo => "-sm.mp4"
  }

  /** The file name of an artifact of the video whose name without ".mp4" is `base`. */
  function ArtifactFile(base: string, a: Artifact): string
  {
    base + FileSuffix(a)
  }

  /** `main.py` (eight probed files, thumbnail stage) or `test_minio.py`
      (four probed files, no thumbnail stage, extra info requests). */
  datatype Variant = Current | FourStage

  /** The artifacts `check_files_exist` probes, in its dictionary order. */
  function CheckedArtifacts(v: Variant): (r: seq<Artifact>)
  {
    match v
    case Current => [Wav, Txt, Analysis, Linkedin, Bluesky, Json, Thumbnail, SmallVideo]
    case FourStage => [Wav, Txt, Analysis, Linkedin]
  }

  /** Which artifacts exist, as `check_files_exist` reports it. */
  type Snapshot = map<Artifact, bool>

  /** The snapshot of the artifacts in `order`, probed one after the other. */
  function ProbeOf(objects: map<string, StoredObject>, unreachable: set<string>, folder: string, base: string,
                   order: seq<Artifact>): Snapshot
  {
    if order == [] then map[]
    else ProbeOf(objects, unreachable, folder, base, order[..|order| - 1])[order[|order| - 1] :=
           Answers(objects, unreachable, ObjectName(folder, ArtifactFile(base, order[|order| - 1])))]
  }

  /** The snapshot a run takes of the bucket: one `object_exists` per artifact. */
  function Probe(objects: map<string, StoredObject>, unreachable: set<string>, folder: string, base: string,
                 v: Variant): Snapshot
  {
    ProbeOf(objects, unreachable, folder, base, CheckedArtifacts(v))
  }

  /** The object names the probes of `order` address, in order. */
  function ProbeNamesOf(folder: string, base: string, order: seq<Artifact>): seq<string>
  {
    if order == [] then []
    else ProbeNamesOf(folder, base, order[..|order| - 1]) + [ObjectName(folder, ArtifactFile(base, order[|order| - 1]))]
  }

  function ProbeNames(folder: string, base: string, v: Variant): seq<string>
  {
    ProbeNamesOf(folder, base, CheckedArtifacts(v))
  }

  lemma ProbeStep(objects: map<string, StoredObject>, unreachable: set<string>, folder: string, base: string,
                  order: seq<Artifact>, i: nat)
    requires i < |order|
    ensures ProbeOf(objects, unreachable, folder, base, order[..i + 1])
         == ProbeOf(objects, unreachable, folder, base, order[..i])[order[i] :=
              Answers(objects, unreachable, ObjectName(folder, ArtifactFile(base, order[i])))]
    ensures ProbeNamesOf(folder, base, order[..i + 1])
         == ProbeNamesOf(folder, base, order[..i]) + [ObjectName(folder, ArtifactFile(base, order[i]))]
  {
    assert order[..i + 1][..i] == order[..i];
  }

  /** The snapshot reports exactly the probed artifacts, each as whether its
      object answers. */
  lemma {:induction false} ProbeOfEntries(objects: map<string, StoredObject>, unreachable: set<string>, folder: string,
                                          base: string, order: seq<Artifact>, a: Artifact)
    ensures a in ProbeOf(objects, unreachable, folder, base, order) <==> a in order
    ensures a in order ==>
      ProbeOf(objects, unreachable, folder, base, order)[a] == Answers(objects, unreachable, ObjectName(folder, ArtifactFile(base, a)))
  {
    if order != [] {
      var init := order[..|order| - 1];
      ProbeOfEntries(objects, unreachable, folder, base, init, a);
    }
  }

  lemma ProbeEntries(objects: map<string, StoredObject>, unreachable: set<string>, folder: string, base: string,
                     v: Variant, a: Artifact)
    ensures a in Probe(objects, unreachable, folder, base, v) <==> a in CheckedArtifacts(v)
    ensures a in CheckedArtifacts(v) ==>
      Probe(objects, unreachable, folder, base, v)[a] == Answers(objects, unreachable, ObjectName(folder, ArtifactFile(base, a)))
  {
    ProbeOfEntries(objects, unreachable, folder, base, CheckedArtifacts(v), a);
  }

  /** `check_files_exist` of `main.py` probes the eight files of the video,
      that of `test_minio.py` the first four. */
  lemma ProbeNamesOfVariants(folder: string, base: string)
    ensures ProbeNames(folder, base, Current) ==
      [ObjectName(folder, base + ".wav"), ObjectName(folder, base + ".txt"), ObjectName(folder, base + "-analysis.txt"),
       ObjectName(folder, base + "-linkedin.txt"), ObjectName(folder, base + "-bluesky.txt"),
       ObjectName(folder, base + ".json"), ObjectName(folder, base + ".webp"), ObjectName(folder, base + "-sm.mp4")]
    ensures ProbeNames(folder, base, FourStage) ==
      [ObjectName(folder, base + ".wav"), ObjectName(folder, base + ".txt"), ObjectName(folder, base + "-analysis.txt"),
       ObjectName(folder, base + "-linkedin.txt")]
  {
    ProbeNamesEight(folder, base, CheckedArtifacts(Current));
    ProbeNamesFirstFour(folder, base, CheckedArtifacts(FourStage));
    assert CheckedArtifacts(FourStage)[..4] == CheckedArtifacts(FourStage);
  }

  lemma ProbeNamesEight(folder: string, base: string, order: seq<Artifact>)
    requires order == [Wav, Txt, Analysis, Linkedin, Bluesky, Json, Thumbnail, SmallVideo]
    ensures ProbeNamesOf(folder, base, order) ==
      [ObjectName(folder, base + ".wav"), ObjectName(folder, base + ".txt"), ObjectName(folder, base + "-analysis.txt"),
       ObjectName(folder, base + "-linkedin.txt"), ObjectName(folder, base + "-bluesky.txt"),
       ObjectName(folder, base + ".json"), ObjectName(folder, base + ".webp"), ObjectName(folder, base + "-sm.mp4")]
  {
    ProbeNamesFirstFour(folder, base, order);
    ProbeNamesNextFour(folder, base, order);
    assert order[..8] == order;
  }

  lemma ProbeNamesNextFour(folder: string, base: string, order: seq<Artifact>)
    requires |order| >= 8 && order[4] == Bluesky && order[5] == Json && order[6] == Thumbnail && order[7] == SmallVideo
    ensures ProbeNamesOf(folder, base, order[..8]) == ProbeNamesOf(folder, base, order[..4]) +
      [ObjectName(folder, base + "-bluesky.txt"), ObjectName(folder, base + ".json"),
       ObjectName(folder, base + ".webp"), ObjectName(folder, base + "-sm.mp4")]
  {
    ProbeNamesStep(folder, base, order, 4);
    ProbeNamesStep(folder, base, order, 5);
    ProbeNamesStep(folder, base, order, 6);
    ProbeNamesStep(folder, base, order, 7);
  }

  lemma ProbeNamesFirstFour(folder: string, base: string, order: seq<Artifact>)
    requires |order| >= 4 && order[0] == Wav && order[1] == Txt && order[2] == Analysis && order[3] == Linkedin
    ensures ProbeNamesOf(folder, base, order[..4]) ==
      [ObjectName(folder, base + ".wav"), ObjectName(folder, base + ".txt"), ObjectName(folder, base + "-analysis.txt"),
       ObjectName(folder, base + "-linkedin.txt")]
  {
    ProbeNamesStep(folder, base, order, 0);
    ProbeNamesStep(folder, base, order, 1);
    ProbeNamesStep(folder, base, order, 2);
    ProbeNamesStep(folder, base, order, 3);
  }

  lemma ProbeNamesStep(folder: string, base: string, order: seq<Artifact>, i: nat)
    requires i < |order|
    ensures ProbeNamesOf(folder, base, order[..i + 1])
         == ProbeNamesOf(folder, base, order[..i]) + [ObjectName(folder, ArtifactFile(base, order[i]))]
  {
    assert order[..i + 1][..i] == order[..i];
  }

  /** The snapshot of force mode: every artifact missing, without a probe. */
  function Forced(v: Variant): Snapshot
  {
    map a | a in CheckedArtifacts(v) :: false
  }

  predicate AllPresent(st: Snapshot)
  {
    forall a :: a in st ==> st[a]
  }

  /** The snapshot reports `a` and reports it missing. */
  predicate Missing(st: Snapshot, a: Artifact)
  {
    a in st && !st[a]
  }

  /** The producing stages, in the order a run executes them. The small-video
      and Bluesky stages are switched off in the code and are not stages. */
  const Stages: seq<Artifact> := [Wav, Txt, Thumbnail, Analysis, Linkedin]

  /** The stages among the first `n` that the snapshot reports missing, in order. */
  function PendingThrough(st: Snapshot, n: nat): seq<Artifact>
    requires n <= |Stages|
  {
    if n == 0 then []
    else PendingThrough(st, n - 1) + (if Missing(st, Stages[n - 1]) then [Stages[n - 1]] else [])
  }

  /** The stages a run with snapshot `st` has to execute, in order. */
  function Pending(st: Snapshot): seq<Artifact>
  {
    PendingThrough(st, |Stages|)
  }

  /** An existing wav is downloaded when a later product that reads it is missing. */
  predicate NeedsWav(st: Snapshot)
  {
    Missing(st, Txt) || Missing(st, Analysis) || Missing(st, Linkedin) || Missing(st, Bluesky)
  }

  /** An existing transcript is downloaded when a product made from it is missing. */
  predicate NeedsTranscript(st: Snapshot)
  {
    Missing(st, Analysis) || Missing(st, Linkedin) || Missing(st, Bluesky)
  }

  /** The object name the text stages pass to `save`: `{folder}/{name}`, or the
      bare name for an empty folder. */
  function TextObjectName(folder: string, name: string): string
  {
    if folder != "" then folder + "/" + name else name
  }

  /** The object a stage writes: wav and thumbnail go through `save_file`, the
      text products through `save`. */
  function StageObject(folder: string, base: string, a: Artifact): string
  {
    if a == Wav || a == Thumbnail then ObjectName(folder, ArtifactFile(base, a))
    else TextObjectName(folder, ArtifactFile(base, a))
  }


  /** One upload of a run: the object name and what was stored under it. */
  datatype Write = Write(key: string, stored: StoredObject)

  /** The bucket after the uploads `writes`, made one after the other. */
  function Apply(objects: map<string, StoredObject>, writes: seq<Write>): map<string, StoredObject>
  {
    if writes == [] then objects
    else Apply(objects, writes[..|writes| - 1])[writes[|writes| - 1].key := writes[|writes| - 1].stored]
  }

  /** The object names of `writes`, in order. */
  function WrittenKeys(writes: seq<Write>): (r: seq<string>)
    ensures |r| == |writes|
  {
    if writes == [] then [] else WrittenKeys(writes[..|writes| - 1]) + [writes[|writes| - 1].key]
  }

  /** The objects the stages in `done` write, in order. */
  function StageKeys(folder: string, base: string, done: seq<Artifact>): seq<string>
  {
    if done == [] then [] else StageKeys(folder, base, done[..|done| - 1]) + [StageObject(folder, base, done[|done| - 1])]
  }

  /** None of `keys` is refused by the server. */
  predicate AllReachable(keys: seq<string>, unreachable: set<string>)
  {
    keys == [] || (AllReachable(keys[..|keys| - 1], unreachable) && keys[|keys| - 1] !in unreachable)
  }

  /** `after` is `before` with one accepted upload per stage of `done`, in
      order, each to the object that stage writes; nothing else changed. */
  predicate Wrote(before: map<string, StoredObject>, after: map<string, StoredObject>, unreachable: set<string>,
                  folder: string, base: string, done: seq<Artifact>, writes: seq<Write>)
  {
    after == Apply(before, writes)
    && WrittenKeys(writes) == StageKeys(folder, base, done)
    && AllReachable(WrittenKeys(writes), unreachable)
  }

  /** A run that has gone through the first `n` stages: the executed stages
      are the pending ones among them, in order, all of them unless the run
      failed, and each wrote its object. */
  predicate Progress(st: Snapshot, n: nat, before: map<string, StoredObject>, after: map<string, StoredObject>,
                     unreachable: set<string>, folder: string, base: string, ok: bool, done: seq<Artifact>,
                     writes: seq<Write>)
  {
    n <= |Stages|
    && done <= PendingThrough(st, n)
    && (ok ==> done == PendingThrough(st, n))
    && Wrote(before, after, unreachable, folder, base, done, writes)
  }

  /** The downloads of a run with nothing to produce all succeed. */
  predicate DownloadsAnswer(objects: map<string, StoredObject>, unreachable: set<string>, folder: string,
                            mp4: string, base: string, st: Snapshot)
  {
    Answers(objects, unreachable, ObjectName(folder, mp4))
    && (NeedsWav(st) ==> Answers(objects, unreachable, ObjectName(folder, ArtifactFile(base, Wav))))
    && (NeedsTranscript(st) ==> Answers(objects, unreachable, ObjectName(folder, ArtifactFile(base, Txt))))
  }

  /** `parse_minio_path`'s result. */
  datatype MinioPath = MinioPath(folder: string, filename: string)

  /** `parse_minio_path`: the parent directory ("" when it is ".") and the name. */
  function ParseMinioPath(minioPath: string): MinioPath
  {
    var p := Paths.ParsePath(minioPath);
    var parent := Paths.PathString(Paths.Parent(p));
    MinioPath(if parent == "." then "" else parent, Paths.Name(p))
  }

  /** `name.lower().endswith(".mp4")`. */
  predicate IsMp4Name(name: string)
  {
    EndsWith(Lower(name), ".mp4")
  }

  /** `name[:-4]`. */
  function Base(name: string): (base: string)
    ensures |name| >= 4 ==> base + name[|name| - 4..] == name
  {
    if |name| >= 4 then name[..|name| - 4] else ""
  }

  /** The snapshot a run works from. */
  function StartSnapshot(v: Variant, force: bool, objects: map<string, StoredObject>, unreachable: set<string>,
                         folder: string, base: string): Snapshot
  {
    if force then Forced(v) else Probe(objects, unreachable, folder, base, v)
  }

  /** The external work of a run: each returns `None` where the real call raises. */
  datatype Tools = Tools(
    extractAudio: Bytes -> Option<Bytes>,
    transcribe: Bytes -> Option<Bytes>,
    analyze: Bytes -> Option<Bytes>,
    writeLinkedinPost: Bytes -> Option<Bytes>,
    decodeMetadata: Bytes -> Option<Video.VideoMetadata>,
    fetch: string -> Option<Bytes>)

  function WavMetadata(mp4: string): map<string, string>
  {
    map["source_file" := mp4, "conversion_tool" := "ffmpeg", "audio_format" := "wav",
        "sample_rate" := "16000", "channels" := "1"]
  }

  function TranscriptMetadata(wav: string, mp4: string): map<string, string>
  {
    map["source_file" := wav, "original_source" := mp4, "transcription_tool" := "whisper",
        "model_size" := "medium", "content_type" := "text/plain"]
  }

  function AnalysisMetadata(txt: string, mp4: string): map<string, string>
  {
    map["source_file" := txt, "original_source" := mp4, "analysis_tool" := "ollama",
        "model_name" := "gpt-oss:20b", "content_type" := "text/plain"]
  }

  function LinkedinMetadata(txt: string, mp4: string): map<string, string>
  {
    map["source_file" := txt, "original_source" := mp4, "generation_tool" := "ollama",
        "model_name" := "gpt-oss:20b", "content_type" := "text/plain", "post_type" := "linkedin"]
  }

  function ThumbnailMetadata(mp4: string): map<string, string>
  {
    map["source_file" := mp4, "content_type" := "image/webp", "thumbnail_type" := "youtube_maxres"]
  }

  const TextPlain := "text/plain"

  /** The output of a tool applied to a local file, `None` when the file is
      absent or the tool fails. */
  function RunTool(tool: Bytes -> Option<Bytes>, local: map<string, Bytes>, input: string): Option<Bytes>
  {
    if input in local then tool(local[input]) else None
  }

  /** What a run is given besides the bucket: the variant, the tools, the
      video's folder, mp4 name and base name, the snapshot the run works from,
      and the object names whose requests fail. */
  datatype Job = Job(v: Variant, tools: Tools, folder: string, mp4: string, base: string, st: Snapshot,
                     unreachable: set<string>)

  /** A run between two steps: whether it is still going, the bucket, the
      temporary directory (file name to contents), every request made so far,
      the stages executed and their uploads. */
  datatype Run = Run(ok: bool, objects: map<string, StoredObject>, local: map<string, Bytes>, requests: seq<string>,
                     done: seq<Artifact>, writes: seq<Write>)

  /** The bytes `download_and_upload_thumbnail` uploads: the `.json` metadata
      object must answer, be non-empty and decode, and then the chosen
      thumbnail of that metadata is fetched. */
  ghost function ThumbnailFetched(tools: Tools, objects: map<string, StoredObject>, unreachable: set<string>,
                                  folder: string, base: string): Option<Bytes>
  {
    var json := ObjectName(folder, ArtifactFile(base, Json));
    if !Answers(objects, unreachable, json) || objects[json].data == [] then None
    else match tools.decodeMetadata(objects[json].data)
      case None => None
      case Some(m) => Video.ThumbnailBytes(m, tools.fetch)
  }

  /** The request log after the thumbnail stage's reads: the `.json`'s
      existence probe and, when it answers, its download. */
  function ThumbnailReads(requests: seq<string>, objects: map<string, StoredObject>, unreachable: set<string>,
                          folder: string, base: string): seq<string>
  {
    var json := ObjectName(folder, ArtifactFile(base, Json));
    var probed := requests + [json];
    if Answers(objects, unreachable, json) then probed + [json] else probed
  }

  /** What the tool of stage `a` makes in the state `r`; `None` when it fails
      or its input is not in the temporary directory. */
  ghost function StageOutput(job: Job, r: Run, a: Artifact): Option<Bytes>
  {
    match a
    case Wav => RunTool(job.tools.extractAudio, r.local, job.mp4)
    case Txt => RunTool(job.tools.transcribe, r.local, ArtifactFile(job.base, Wav))
    case Thumbnail => ThumbnailFetched(job.tools, r.objects, job.unreachable, job.folder, job.base)
    case Analysis => RunTool(job.tools.analyze, r.local, ArtifactFile(job.base, Txt))
    case Linkedin => RunTool(job.tools.writeLinkedinPost, r.local, ArtifactFile(job.base, Txt))
    case _ => None
  }

  /** The object stage `a` uploads for `data`, with its content type and metadata. */
  function StageStored(job: Job, a: Artifact, data: Bytes): StoredObject
  {
    var wav, txt := ArtifactFile(job.base, Wav), ArtifactFile(job.base, Txt);
    match a
    case Wav => StoredObject(data, DefaultContentType, WavMetadata(job.mp4))
    case Txt => StoredObject(data, TextPlain, TranscriptMetadata(wav, job.mp4))
    case Thumbnail => StoredObject(data, DefaultContentType, ThumbnailMetadata(job.mp4))
    case Analysis => StoredObject(data, TextPlain, AnalysisMetadata(txt, job.mp4))
    case _ => StoredObject(data, TextPlain, LinkedinMetadata(txt, job.mp4))
  }

  /** A missing stage runs: its tool's output is kept in the temporary
      directory (wav, transcript, thumbnail) and uploaded to the stage's
      object; the stage succeeds iff the tool succeeds and the upload is
      accepted, and `test_minio.py` then asks for the new object's info. */
  ghost function Produce(job: Job, a: Artifact, r: Run): (r': Run)
    ensures !r'.ok ==> r'.objects == r.objects && r'.done == r.done && r'.writes == r.writes
    ensures r'.ok ==> r'.done == r.done + [a] && StageObject(job.folder, job.base, a) in r'.objects
    ensures r.requests <= r'.requests
  {
    var out := StageOutput(job, r, a);
    var key := StageObject(job.folder, job.base, a);
    var ok := out.Some? && key !in job.unreachable;
    var read := if a == Thumbnail then ThumbnailReads(r.requests, r.objects, job.unreachable, job.folder, job.base)
                else r.requests;
    var saved := if out.Some? then read + [key] else read;
    var logged := if ok && job.v == FourStage && a != Thumbnail
                  then saved + [ObjectName(job.folder, ArtifactFile(job.base, a))] else saved;
    Run(ok,
        if ok then r.objects[key := StageStored(job, a, out.value)] else r.objects,
        if out.Some? && (a == Wav || a == Txt || a == Thumbnail) then r.local[ArtifactFile(job.base, a) := out.value]
        else r.local,
        logged,
        if ok then r.done + [a] else r.done,
        if ok then r.writes + [Write(key, StageStored(job, a, out.value))] else r.writes)
  }

  /** An existing stage's object is downloaded into the temporary directory
      when `needed`; the run stops when that download fails. */
  function Fetch(job: Job, needed: bool, a: Artifact, r: Run): (r': Run)
    ensures r'.objects == r.objects && r'.done == r.done && r'.writes == r.writes
    ensures r.requests <= r'.requests
    ensures r'.ok <==> r.ok && (needed ==> Answers(r.objects, job.unreachable, ObjectName(job.folder, ArtifactFile(job.base, a))))
  {
    if !needed then r
    else
      var key := ObjectName(job.folder, ArtifactFile(job.base, a));
      var got := Answers(r.objects, job.unreachable, key);
      r.(ok := r.ok && got, local := if got then r.local[ArtifactFile(job.base, a) := r.objects[key].data] else r.local,
         requests := r.requests + [key])
  }

  /** Stage `k` of a run that is still going: a missing stage is produced; an
      existing wav or transcript is downloaded when a later product reads it;
      the other existing stages are skipped. */
  ghost function Step(job: Job, k: nat, r: Run): (r': Run)
    requires k < |Stages|
    ensures !r'.ok ==> r'.objects == r.objects && r'.done == r.done && r'.writes == r.writes
    ensures r.requests <= r'.requests
  {
    var a := Stages[k];
    if Missing(job.st, a) then Produce(job, a, r)
    else if a == Wav then Fetch(job, NeedsWav(job.st), Wav, r)
    else if a == Txt then Fetch(job, NeedsTranscript(job.st), Txt, r)
    else r
  }

  /** Stage `k` when the run is still going; nothing once it has failed. */
  ghost function Next(job: Job, k: nat, r: Run): (r': Run)
    requires k < |Stages|
  {
    if r.ok then Step(job, k, r) else r
  }

  /** The run after its first `n` stages, from `r0`: each stage runs on the
      state the previous one left, and once a stage fails nothing more happens. */
  ghost function RunThrough(job: Job, n: nat, r0: Run): (r: Run)
    requires n <= |Stages|
  {
    if n == 0 then r0 else Next(job, n - 1, RunThrough(job, n - 1, r0))
  }

  /** The run once the mp4 was found: download it into the temporary
      directory, then the five stages. */
  ghost function StagesRun(job: Job, r: Run): Run
  {
    var key := ObjectName(job.folder, job.mp4);
    var requests := r.requests + [key];
    if !Answers(r.objects, job.unreachable, key) then r.(ok := false, requests := requests)
    else RunThrough(job, |Stages|, r.(local := r.local[job.mp4 := r.objects[key].data], requests := requests))
  }

  /** A whole run on the video `mp4` of `folder`, from the bucket `before` and
      the request log `accessed`: probe unless forced; when the probe finds
      everything, succeed at once; otherwise ask whether the mp4 exists (and,
      in `test_minio.py`, list the folder when it does not) and fail when it
      does not; otherwise run the stages. */
  ghost function VideoRun(v: Variant, force: bool, tools: Tools, folder: string, mp4: string,
                          before: map<string, StoredObject>, unreachable: set<string>, accessed: seq<string>): Run
  {
    var base := Base(mp4);
    var st := StartSnapshot(v, force, before, unreachable, folder, base);
    var probed := if force then accessed else accessed + ProbeNames(folder, base, v);
    if !force && AllPresent(st) then Run(true, before, map[], probed, [], [])
    else
      var key := ObjectName(folder, mp4);
      var asked := probed + [key];
      if !Answers(before, unreachable, key) then
        Run(false, before, map[], if v == FourStage then asked + [ListPrefix(folder)] else asked, [], [])
      else StagesRun(Job(v, tools, folder, mp4, base, st, unreachable), Run(true, before, map[], asked, [], []))
  }

  /** The result of a run on the video `mp4` of `folder`, as `VideoRun` makes it. */
  ghost predicate VideoOutcome(v: Variant, force: bool, tools: Tools, folder: string, mp4: string,
                               before: map<string, StoredObject>, after: map<string, StoredObject>,
                               unreachable: set<string>, ok: bool, done: seq<Artifact>, writes: seq<Write>)
  {
    var r := VideoRun(v, force, tools, folder, mp4, before, unreachable, []);
    ok == r.ok && after == r.objects && done == r.done && writes == r.writes
  }

  /** The result of a run on `minioPath`: a name not ending in ".mp4" (in any
      case) fails without touching the bucket. */
  ghost predicate Outcome(v: Variant, force: bool, tools: Tools, minioPath: string, before: map<string, StoredObject>,
                          after: map<string, StoredObject>, unreachable: set<string>, ok: bool, done: seq<Artifact>,
                          writes: seq<Write>)
  {
    var path := ParseMinioPath(minioPath);
    if !IsMp4Name(path.filename) then !ok && after == before && done == [] && writes == []
    else VideoOutcome(v, force, tools, path.folder, path.filename, before, after, unreachable, ok, done, writes)
  }

  /** The requests of a run on `minioPath`: none for a non-mp4 name, else
      those of `VideoRun`, in order. */
  ghost predicate Requests(v: Variant, force: bool, tools: Tools, minioPath: string, before: map<string, StoredObject>,
                           unreachable: set<string>, accessedBefore: seq<string>, accessed: seq<string>)
  {
    var path := ParseMinioPath(minioPath);
    if !IsMp4Name(path.filename) then accessed == accessedBefore
    else accessed == VideoRun(v, force, tools, path.folder, path.filename, before, unreachable, accessedBefore).requests
  }

  lemma PendingThroughPrefix(st: Snapshot, m: nat, n: nat)
    requires m <= n <= |Stages|
    ensures PendingThrough(st, m) <= PendingThrough(st, n)
    decreases n - m
  {
    if m < n {
      PendingThroughPrefix(st, m, n - 1);
    }
  }

  /** A stage is pending exactly when the snapshot reports it missing. */
  lemma {:induction false} PendingThroughMembers(st: Snapshot, n: nat, a: Artifact)
    requires n <= |Stages|
    ensures a in PendingThrough(st, n) <==> a in Stages[..n] && Missing(st, a)
  {
    if n > 0 {
      PendingThroughMembers(st, n - 1, a);
      assert Stages[..n] == Stages[..n - 1] + [Stages[n - 1]];
    }
  }

  lemma PendingMembers(st: Snapshot, a: Artifact)
    ensures a in Pending(st) <==> a in Stages && Missing(st, a)
  {
    PendingThroughMembers(st, |Stages|, a);
    assert Stages[..|Stages|] == Stages;
  }

  /** The position of a stage in the execution order. */
  function StageIndex(a: Artifact): nat
  {
    match a
    case Wav => 0
    case Txt => 1
    case Thumbnail => 2
    case Analysis => 3
    case Linkedin => 4
    case _ => 5
  }

  /** Pending stages come in execution order: wav, txt, thumbnail, analysis, linkedin. */
  lemma {:induction false} PendingThroughOrdered(st: Snapshot, n: nat)
    requires n <= |Stages|
    ensures forall i :: 0 <= i < |PendingThrough(st, n)| ==> StageIndex(PendingThrough(st, n)[i]) < n
    ensures forall i, j :: 0 <= i < j < |PendingThrough(st, n)| ==>
      StageIndex(PendingThrough(st, n)[i]) < StageIndex(PendingThrough(st, n)[j])
  {
    if n > 0 {
      PendingThroughOrdered(st, n - 1);
      assert StageIndex(Stages[n - 1]) == n - 1;
    }
  }

  lemma PendingOrdered(st: Snapshot)
    ensures forall i, j :: 0 <= i < j < |Pending(st)| ==> StageIndex(Pending(st)[i]) < StageIndex(Pending(st)[j])
  {
    PendingThroughOrdered(st, |Stages|);
  }

  /** No stage is pending exactly when none of the five is reported missing. */
  lemma PendingEmpty(st: Snapshot)
    ensures Pending(st) == [] <==>
      !Missing(st, Wav) && !Missing(st, Txt) && !Missing(st, Thumbnail) && !Missing(st, Analysis) && !Missing(st, Linkedin)
  {
    PendingMembers(st, Wav);
    PendingMembers(st, Txt);
    PendingMembers(st, Thumbnail);
    PendingMembers(st, Analysis);
    PendingMembers(st, Linkedin);
    if Pending(st) != [] {
      PendingMembers(st, Pending(st)[0]);
    }
  }

  /** In force mode every stage of the variant is pending. */
  lemma ForcedPending(v: Variant)
    ensures Pending(Forced(v)) == if v == Current then Stages else [Wav, Txt, Analysis, Linkedin]
  {
    ForcedMissing(v);
    PendingWhenMissing(Forced(v), v == Current);
  }

  /** A snapshot missing the four common products, and the thumbnail exactly
      when `thumbnail`, has them all pending in stage order. */
  lemma PendingWhenMissing(st: Snapshot, thumbnail: bool)
    requires Missing(st, Wav) && Missing(st, Txt) && Missing(st, Analysis) && Missing(st, Linkedin)
    requires Missing(st, Thumbnail) <==> thumbnail
    ensures Pending(st) == if thumbnail then Stages else [Wav, Txt, Analysis, Linkedin]
  {
    assert PendingThrough(st, 1) == [Wav];
    assert PendingThrough(st, 2) == [Wav, Txt];
    assert PendingThrough(st, 3) == if thumbnail then [Wav, Txt, Thumbnail] else [Wav, Txt];
    assert PendingThrough(st, 4) == PendingThrough(st, 3) + [Analysis];
  }

  /** Force mode reports every probed artifact missing. */
  lemma ForcedMissing(v: Variant)
    ensures Missing(Forced(v), Wav) && Missing(Forced(v), Txt)
    ensures Missing(Forced(v), Analysis) && Missing(Forced(v), Linkedin)
    ensures Missing(Forced(v), Thumbnail) <==> v == Current
  {
    assert Wav in CheckedArtifacts(v) && Txt in CheckedArtifacts(v);
    assert Analysis in CheckedArtifacts(v) && Linkedin in CheckedArtifacts(v);
    assert Thumbnail in CheckedArtifacts(v) <==> v == Current;
  }

  /** The eight probed object names are pairwise different. */
  lemma ProbeNamesDistinct(folder: string, base: string, a: Artifact, b: Artifact)
    requires a != b
    ensures ObjectName(folder, ArtifactFile(base, a)) != ObjectName(folder, ArtifactFile(base, b))
  {
    ArtifactFileDistinct(base, a, b);
    if ObjectName(folder, ArtifactFile(base, a)) == ObjectName(folder, ArtifactFile(base, b)) {
      ObjectNameInjective(folder, ArtifactFile(base, a), ArtifactFile(base, b));
    }
  }

  lemma ArtifactFileDistinct(base: string, a: Artifact, b: Artifact)
    requires a != b
    ensures ArtifactFile(base, a) != ArtifactFile(base, b)
  {
    assert ArtifactFile(base, a)[|base|..] == FileSuffix(a);
    assert ArtifactFile(base, b)[|base|..] == FileSuffix(b);
  }

  /** For a folder without a '/' at either end, the text stages and the probes
      address the same objects. */
  lemma TextObjectNameOfPlain(folder: string, name: string)
    requires PlainFolder(folder)
    ensures TextObjectName(folder, name) == ObjectName(folder, name)
  {
    StripCharOfPlain(folder);
  }

  /** For the empty folder they do not: `save` writes `name`, `object_exists`
      probes `/name`. */
  lemma TextObjectNameOfEmpty(name: string)
    ensures ObjectName("", name) == "/" + name
    ensures TextObjectName("", name) != ObjectName("", name)
  {
    assert StripChar("", '/') == "";
    assert |ObjectName("", name)| == |name| + 1;
  }

  lemma StageObjectOfPlain(folder: string, base: string, a: Artifact)
    requires PlainFolder(folder)
    ensures StageObject(folder, base, a) == ObjectName(folder, ArtifactFile(base, a))
  {
    TextObjectNameOfPlain(folder, ArtifactFile(base, a));
  }

  /** One more accepted upload, to the object of stage `a`, extends the record. */
  lemma WroteStep(before: map<string, StoredObject>, mid: map<string, StoredObject>, unreachable: set<string>,
                  folder: string, base: string, done: seq<Artifact>, writes: seq<Write>, a: Artifact, o: StoredObject)
    requires Wrote(before, mid, unreachable, folder, base, done, writes)
    requires StageObject(folder, base, a) !in unreachable
    ensures Wrote(before, mid[StageObject(folder, base, a) := o], unreachable, folder, base, done + [a],
                  writes + [Write(StageObject(folder, base, a), o)])
  {
    var w := writes + [Write(StageObject(folder, base, a), o)];
    assert w[..|w| - 1] == writes;
    assert (done + [a])[..|done|] == done;
  }

  /** A stage that ran and uploaded its object advances the run by one stage. */
  lemma ProgressAdvance(st: Snapshot, k: nat, before: map<string, StoredObject>, mid: map<string, StoredObject>,
                        unreachable: set<string>, folder: string, base: string, done: seq<Artifact>, writes: seq<Write>,
                        o: StoredObject)
    requires k < |Stages| && Missing(st, Stages[k])
    requires Progress(st, k, before, mid, unreachable, folder, base, true, done, writes)
    requires StageObject(folder, base, Stages[k]) !in unreachable
    ensures Progress(st, k + 1, before, mid[StageObject(folder, base, Stages[k]) := o], unreachable, folder, base, true,
                     done + [Stages[k]], writes + [Write(StageObject(folder, base, Stages[k]), o)])
  {
    WroteStep(before, mid, unreachable, folder, base, done, writes, Stages[k], o);
  }

  /** A stage that ran advances the run: with its object written when it
      succeeded, and failed with nothing written otherwise. */
  lemma StageRan(st: Snapshot, k: nat, before: map<string, StoredObject>, mid: map<string, StoredObject>,
                 after: map<string, StoredObject>, unreachable: set<string>, folder: string, base: string,
                 done: seq<Artifact>, writes: seq<Write>, ok: bool, o: StoredObject)
    requires k < |Stages| && Missing(st, Stages[k])
    requires Progress(st, k, before, mid, unreachable, folder, base, true, done, writes)
    requires ok ==> StageObject(folder, base, Stages[k]) !in unreachable
                    && after == mid[StageObject(folder, base, Stages[k]) := o]
    requires !ok ==> after == mid
    ensures Progress(st, k + 1, before, after, unreachable, folder, base, ok,
                     if ok then done + [Stages[k]] else done,
                     if ok then writes + [Write(StageObject(folder, base, Stages[k]), o)] else writes)
  {
    if ok {
      ProgressAdvance(st, k, before, mid, unreachable, folder, base, done, writes, o);
    } else {
      ProgressFail(st, k, k + 1, before, after, unreachable, folder, base, true, done, writes);
    }
  }

  /** A stage with nothing to produce advances the run without a write. */
  lemma ProgressSkip(st: Snapshot, k: nat, before: map<string, StoredObject>, after: map<string, StoredObject>,
                     unreachable: set<string>, folder: string, base: string, done: seq<Artifact>, writes: seq<Write>)
    requires k < |Stages| && !Missing(st, Stages[k])
    requires Progress(st, k, before, after, unreachable, folder, base, true, done, writes)
    ensures Progress(st, k + 1, before, after, unreachable, folder, base, true, done, writes)
  {
  }

  /** A failure keeps the stages executed so far, whichever stage it stops at. */
  lemma ProgressFail(st: Snapshot, k: nat, n: nat, before: map<string, StoredObject>, after: map<string, StoredObject>,
                     unreachable: set<string>, folder: string, base: string, ok: bool, done: seq<Artifact>,
                     writes: seq<Write>)
    requires k <= n <= |Stages|
    requires Progress(st, k, before, after, unreachable, folder, base, ok, done, writes)
    ensures Progress(st, n, before, after, unreachable, folder, base, false, done, writes)
  {
    PendingThroughPrefix(st, k, n);
  }

  /** Uploads leave every other object as it was and make their own objects present. */
  lemma {:induction false} ApplyFrame(before: map<string, StoredObject>, writes: seq<Write>, k: string)
    ensures k in WrittenKeys(writes) ==> k in Apply(before, writes)
    ensures k !in WrittenKeys(writes) ==> (k in Apply(before, writes) <==> k in before)
    ensures k !in WrittenKeys(writes) && k in before ==> Apply(before, writes)[k] == before[k]
  {
    if writes != [] {
      var init := writes[..|writes| - 1];
      ApplyFrame(before, init, k);
      assert WrittenKeys(writes) == WrittenKeys(init) + [writes[|writes| - 1].key];
    }
  }

  lemma {:induction false} AllReachableMember(keys: seq<string>, unreachable: set<string>, k: string)
    requires AllReachable(keys, unreachable) && k in keys
    ensures k !in unreachable
  {
    var init := keys[..|keys| - 1];
    if k != keys[|keys| - 1] {
      assert keys == init + [keys[|keys| - 1]];
      AllReachableMember(init, unreachable, k);
    }
  }

  lemma {:induction false} StageKeysMember(folder: string, base: string, done: seq<Artifact>, a: Artifact)
    requires a in done
    ensures StageObject(folder, base, a) in StageKeys(folder, base, done)
  {
    var init := done[..|done| - 1];
    if a != done[|done| - 1] {
      assert done == init + [done[|done| - 1]];
      StageKeysMember(folder, base, init, a);
    }
  }

  lemma {:induction false} StageKeysAvoid(folder: string, base: string, done: seq<Artifact>, k: string)
    requires forall i :: 0 <= i < |done| ==> StageObject(folder, base, done[i]) != k
    ensures k !in StageKeys(folder, base, done)
  {
    if done != [] {
      StageKeysAvoid(folder, base, done[..|done| - 1], k);
    }
  }

  /** The object of every executed stage answers afterwards. */
  lemma WrittenAnswers(before: map<string, StoredObject>, after: map<string, StoredObject>, unreachable: set<string>,
                       folder: string, base: string, done: seq<Artifact>, writes: seq<Write>, a: Artifact)
    requires Wrote(before, after, unreachable, folder, base, done, writes) && a in done
    ensures Answers(after, unreachable, StageObject(folder, base, a))
  {
    var k := StageObject(folder, base, a);
    StageKeysMember(folder, base, done, a);
    ApplyFrame(before, writes, k);
    AllReachableMember(WrittenKeys(writes), unreachable, k);
  }

  /** Uploads never remove an object: one that answered still answers. */
  lemma AnswersKept(before: map<string, StoredObject>, after: map<string, StoredObject>, unreachable: set<string>,
                    folder: string, base: string, done: seq<Artifact>, writes: seq<Write>, k: string)
    requires Wrote(before, after, unreachable, folder, base, done, writes) && Answers(before, unreachable, k)
    ensures Answers(after, unreachable, k)
  {
    ApplyFrame(before, writes, k);
  }

  /** An object no executed stage writes is unchanged. */
  lemma WroteFrame(before: map<string, StoredObject>, after: map<string, StoredObject>, unreachable: set<string>,
                   folder: string, base: string, done: seq<Artifact>, writes: seq<Write>, k: string)
    requires Wrote(before, after, unreachable, folder, base, done, writes)
    requires forall i :: 0 <= i < |done| ==> StageObject(folder, base, done[i]) != k
    ensures (k in after <==> k in before) && (k in before ==> after[k] == before[k])
  {
    StageKeysAvoid(folder, base, done, k);
    ApplyFrame(before, writes, k);
  }

  /** No executed stage means no upload and an unchanged bucket. */
  lemma NoWritesUnchanged(before: map<string, StoredObject>, after: map<string, StoredObject>, unreachable: set<string>,
                          folder: string, base: string, writes: seq<Write>)
    requires Wrote(before, after, unreachable, folder, base, [], writes)
    ensures writes == [] && after == before
  {
    assert |WrittenKeys(writes)| == 0;
  }

  /** After every pending stage was executed, a stage of the five is not
      reported missing by a new probe (for a folder where both naming rules
      agree). */
  lemma StageFoundAfter(v: Variant, force: bool, before: map<string, StoredObject>, after: map<string, StoredObject>,
                        unreachable: set<string>, folder: string, base: string, writes: seq<Write>, a: Artifact)
    requires PlainFolder(folder) && a in Stages
    requires Wrote(before, after, unreachable, folder, base,
                   Pending(StartSnapshot(v, force, before, unreachable, folder, base)), writes)
    ensures !Missing(Probe(after, unreachable, folder, base, v), a)
  {
    var st := StartSnapshot(v, force, before, unreachable, folder, base);
    StartSnapshotSound(v, force, before, unreachable, folder, base, a);
    ProbedAfterRun(v, st, before, after, unreachable, folder, base, writes, a);
  }

  /** A stage the starting snapshot does not report missing had its object
      answering before the run. */
  lemma StartSnapshotSound(v: Variant, force: bool, before: map<string, StoredObject>, unreachable: set<string>,
                           folder: string, base: string, a: Artifact)
    ensures a in CheckedArtifacts(v) && !Missing(StartSnapshot(v, force, before, unreachable, folder, base), a) ==>
      Answers(before, unreachable, ObjectName(folder, ArtifactFile(base, a)))
  {
    if !force {
      ProbeEntries(before, unreachable, folder, base, v, a);
    }
  }

  /** After the pending stages of `st` were executed, a stage of the five is
      not reported missing by a new probe, given that the stages `st` skipped
      were already there. */
  lemma ProbedAfterRun(v: Variant, st: Snapshot, before: map<string, StoredObject>, after: map<string, StoredObject>,
                       unreachable: set<string>, folder: string, base: string, writes: seq<Write>, a: Artifact)
    requires PlainFolder(folder) && a in Stages
    requires Wrote(before, after, unreachable, folder, base, Pending(st), writes)
    requires a in CheckedArtifacts(v) && !Missing(st, a) ==>
      Answers(before, unreachable, ObjectName(folder, ArtifactFile(base, a)))
    ensures !Missing(Probe(after, unreachable, folder, base, v), a)
  {
    ProbeEntries(after, unreachable, folder, base, v, a);
    if a in CheckedArtifacts(v) {
      StageObjectOfPlain(folder, base, a);
      PendingMembers(st, a);
      if a in Pending(st) {
        WrittenAnswers(before, after, unreachable, folder, base, Pending(st), writes, a);
      } else {
        AnswersKept(before, after, unreachable, folder, base, Pending(st), writes, ObjectName(folder, ArtifactFile(base, a)));
      }
    }
  }

  /** After every pending stage was executed, a new probe finds no stage pending. */
  lemma NothingPendingAfter(v: Variant, force: bool, before: map<string, StoredObject>, after: map<string, StoredObject>,
                            unreachable: set<string>, folder: string, base: string, writes: seq<Write>)
    requires PlainFolder(folder)
    requires Wrote(before, after, unreachable, folder, base,
                   Pending(StartSnapshot(v, force, before, unreachable, folder, base)), writes)
    ensures Pending(Probe(after, unreachable, folder, base, v)) == []
  {
    StageFoundAfter(v, force, before, after, unreachable, folder, base, writes, Wav);
    StageFoundAfter(v, force, before, after, unreachable, folder, base, writes, Txt);
    StageFoundAfter(v, force, before, after, unreachable, folder, base, writes, Thumbnail);
    StageFoundAfter(v, force, before, after, unreachable, folder, base, writes, Analysis);
    StageFoundAfter(v, force, before, after, unreachable, folder, base, writes, Linkedin);
    PendingEmpty(Probe(after, unreachable, folder, base, v));
  }

  /** A probe that reports the wav and the transcript present makes their downloads succeed. */
  lemma DownloadsAnswerAfter(v: Variant, objects: map<string, StoredObject>, unreachable: set<string>, folder: string,
                             mp4: string, base: string)
    requires Answers(objects, unreachable, ObjectName(folder, mp4))
    requires !Missing(Probe(objects, unreachable, folder, base, v), Wav)
    requires !Missing(Probe(objects, unreachable, folder, base, v), Txt)
    ensures DownloadsAnswer(objects, unreachable, folder, mp4, base, Probe(objects, unreachable, folder, base, v))
  {
    ProbeEntries(objects, unreachable, folder, base, v, Wav);
    ProbeEntries(objects, unreachable, folder, base, v, Txt);
  }

  /** Two runs that differ at most in their request logs. */
  ghost predicate SameButRequests(r1: Run, r2: Run)
  {
    r1.ok == r2.ok && r1.objects == r2.objects && r1.local == r2.local && r1.done == r2.done && r1.writes == r2.writes
  }

  /** What the stages do does not depend on the requests made before them. */
  lemma {:induction false} RunThroughIgnoresRequests(job: Job, n: nat, r1: Run, r2: Run)
    requires n <= |Stages| && SameButRequests(r1, r2)
    ensures SameButRequests(RunThrough(job, n, r1), RunThrough(job, n, r2))
  {
    if n > 0 {
      RunThroughIgnoresRequests(job, n - 1, r1, r2);
      var s1, s2 := RunThrough(job, n - 1, r1), RunThrough(job, n - 1, r2);
      if s1.ok {
        StepIgnoresRequests(job, n - 1, s1, s2);
      }
    }
  }

  lemma StepIgnoresRequests(job: Job, k: nat, r1: Run, r2: Run)
    requires k < |Stages| && SameButRequests(r1, r2)
    ensures SameButRequests(Step(job, k, r1), Step(job, k, r2))
  {
    var a := Stages[k];
    if Missing(job.st, a) {
      assert StageOutput(job, r1, a) == StageOutput(job, r2, a);
      assert Step(job, k, r1) == Produce(job, a, r1) && Step(job, k, r2) == Produce(job, a, r2);
    }
  }

  /** The outcome of a run does not depend on the request log it starts from. */
  lemma VideoRunIgnoresRequests(v: Variant, force: bool, tools: Tools, folder: string, mp4: string,
                                before: map<string, StoredObject>, unreachable: set<string>, a1: seq<string>,
                                a2: seq<string>)
    ensures SameButRequests(VideoRun(v, force, tools, folder, mp4, before, unreachable, a1),
                            VideoRun(v, force, tools, folder, mp4, before, unreachable, a2))
  {
    var base := Base(mp4);
    var st := StartSnapshot(v, force, before, unreachable, folder, base);
    var key := ObjectName(folder, mp4);
    if (force || !AllPresent(st)) && Answers(before, unreachable, key) {
      var job := Job(v, tools, folder, mp4, base, st, unreachable);
      var p1 := if force then a1 else a1 + ProbeNames(folder, base, v);
      var p2 := if force then a2 else a2 + ProbeNames(folder, base, v);
      var local := map[][mp4 := before[key].data];
      RunThroughIgnoresRequests(job, |Stages|, Run(true, before, local, p1 + [key] + [key], [], []),
                                Run(true, before, local, p2 + [key] + [key], [], []));
    }
  }

  /** A run only adds requests to the log. */
  lemma {:induction false} RunThroughRequestsGrow(job: Job, n: nat, r0: Run)
    requires n <= |Stages|
    ensures r0.requests <= RunThrough(job, n, r0).requests
  {
    if n > 0 {
      RunThroughRequestsGrow(job, n - 1, r0);
    }
  }

  /** The first failure ends the run: nothing happens after it. */
  lemma {:induction false} RunThroughStopped(job: Job, m: nat, n: nat, r0: Run)
    requires m <= n <= |Stages| && !RunThrough(job, m, r0).ok
    ensures RunThrough(job, n, r0) == RunThrough(job, m, r0)
  {
    if m < n {
      RunThroughStopped(job, m, n - 1, r0);
    }
  }

  /** A run from a fresh start executes the pending stages among the first
      `n` in order, up to the first failure, each writing its object. */
  lemma {:induction false} RunThroughProgress(job: Job, n: nat, r0: Run)
    requires n <= |Stages| && r0.ok && r0.done == [] && r0.writes == []
    ensures RunProgress(job, r0.objects, n, RunThrough(job, n, r0))
  {
    if n > 0 {
      RunThroughProgress(job, n - 1, r0);
      NextProgress(job, n - 1, r0.objects, RunThrough(job, n - 1, r0));
      assert RunThrough(job, n, r0) == Next(job, n - 1, RunThrough(job, n - 1, r0));
    } else {
      ProgressStart(job, r0);
    }
  }

  /** `Progress` of the run `r` after its first `k` stages. */
  ghost predicate RunProgress(job: Job, before: map<string, StoredObject>, k: nat, r: Run)
  {
    Progress(job.st, k, before, r.objects, job.unreachable, job.folder, job.base, r.ok, r.done, r.writes)
  }

  /** A run that has not begun its stages has made no progress. */
  lemma ProgressStart(job: Job, r0: Run)
    requires r0.done == [] && r0.writes == []
    ensures RunProgress(job, r0.objects, 0, r0)
  {
    assert WrittenKeys([]) == [] == StageKeys(job.folder, job.base, []);
  }

  /** One more stage advances the progress of a run, whether or not it is
      still going. */
  lemma NextProgress(job: Job, k: nat, before: map<string, StoredObject>, r: Run)
    requires k < |Stages| && RunProgress(job, before, k, r)
    ensures RunProgress(job, before, k + 1, Next(job, k, r))
  {
    if r.ok {
      StepProgress(job, k, before, r);
    } else {
      ProgressFail(job.st, k, k + 1, before, r.objects, job.unreachable, job.folder, job.base, false, r.done,
                   r.writes);
    }
  }

  /** One stage of a run that is still going advances its progress by one stage. */
  lemma StepProgress(job: Job, k: nat, before: map<string, StoredObject>, r: Run)
    requires k < |Stages| && r.ok
    requires Progress(job.st, k, before, r.objects, job.unreachable, job.folder, job.base, true, r.done, r.writes)
    ensures var r' := Step(job, k, r);
      Progress(job.st, k + 1, before, r'.objects, job.unreachable, job.folder, job.base, r'.ok, r'.done, r'.writes)
  {
    var a := Stages[k];
    if Missing(job.st, a) {
      var out := StageOutput(job, r, a);
      var r' := Produce(job, a, r);
      ProduceShape(job, a, r);
      assert r' == Step(job, k, r);
      StageRan(job.st, k, before, r.objects, r'.objects, job.unreachable, job.folder, job.base, r.done, r.writes,
               r'.ok, StageStored(job, a, if out.Some? then out.value else []));
    } else {
      ProgressSkip(job.st, k, before, r.objects, job.unreachable, job.folder, job.base, r.done, r.writes);
      ProgressFail(job.st, k + 1, k + 1, before, r.objects, job.unreachable, job.folder, job.base, true, r.done,
                   r.writes);
    }
  }

  /** Stages that all exist only download: the bucket is untouched, and the
      run goes on exactly while the wav and transcript downloads the later
      products need succeed. */
  lemma {:induction false} QuietRunThrough(job: Job, n: nat, r0: Run)
    requires n <= |Stages|
    requires forall k :: 0 <= k < n ==> !Missing(job.st, Stages[k])
    ensures var r := RunThrough(job, n, r0);
      r.objects == r0.objects && r.done == r0.done && r.writes == r0.writes
      && (r.ok <==> r0.ok
                    && (n > 0 && NeedsWav(job.st) ==>
                          Answers(r0.objects, job.unreachable, ObjectName(job.folder, ArtifactFile(job.base, Wav))))
                    && (n > 1 && NeedsTranscript(job.st) ==>
                          Answers(r0.objects, job.unreachable, ObjectName(job.folder, ArtifactFile(job.base, Txt)))))
  {
    if n > 0 {
      QuietRunThrough(job, n - 1, r0);
    }
  }

  /** The work of a run cannot fail: the four tools always give a result,
      the thumbnail can be fetched when it is missing, the object of every
      pending stage accepts its upload, and the existing wav and transcript
      answer when a later product needs them. */
  ghost predicate NothingFails(job: Job, objects: map<string, StoredObject>)
  {
    var wav, txt := ObjectName(job.folder, ArtifactFile(job.base, Wav)), ObjectName(job.folder, ArtifactFile(job.base, Txt));
    (forall b :: job.tools.extractAudio(b).Some?) && (forall b :: job.tools.transcribe(b).Some?)
    && (forall b :: job.tools.analyze(b).Some?) && (forall b :: job.tools.writeLinkedinPost(b).Some?)
    && (Missing(job.st, Thumbnail) ==> ThumbnailFetched(job.tools, objects, job.unreachable, job.folder, job.base).Some?)
    && (forall i :: 0 <= i < |Stages| && Missing(job.st, Stages[i]) ==>
          StageObject(job.folder, job.base, Stages[i]) !in job.unreachable)
    && (!Missing(job.st, Wav) && NeedsWav(job.st) ==> Answers(objects, job.unreachable, wav))
    && (!Missing(job.st, Txt) && NeedsTranscript(job.st) ==> Answers(objects, job.unreachable, txt))
  }

  /** A run where nothing can fail, after its first `k` stages: it goes on,
      each executed stage wrote its object (never the `.json` metadata), and
      it holds locally the mp4 and the wav and transcript the later stages
      read. */
  ghost predicate Healthy(job: Job, before: map<string, StoredObject>, k: nat, r: Run)
  {
    k <= |Stages| && r.ok && Json !in r.done && job.mp4 in r.local
    && Wrote(before, r.objects, job.unreachable, job.folder, job.base, r.done, r.writes)
    && (k >= 1 && NeedsWav(job.st) ==> ArtifactFile(job.base, Wav) in r.local)
    && (k >= 2 && NeedsTranscript(job.st) ==> ArtifactFile(job.base, Txt) in r.local)
  }

  /** When nothing can fail, the run goes on through every stage, with the
      inputs of the later stages in the temporary directory. */
  lemma {:induction false} RunThroughSucceeds(job: Job, n: nat, r0: Run)
    requires n <= |Stages| && PlainFolder(job.folder) && NothingFails(job, r0.objects)
    requires Healthy(job, r0.objects, 0, r0)
    ensures Healthy(job, r0.objects, n, RunThrough(job, n, r0))
  {
    if n > 0 {
      RunThroughSucceeds(job, n - 1, r0);
      StepSucceeds(job, n - 1, r0.objects, RunThrough(job, n - 1, r0));
      assert RunThrough(job, n, r0) == Next(job, n - 1, RunThrough(job, n - 1, r0));
    }
  }

  /** A run that has not begun its stages is healthy once it holds the mp4. */
  lemma HealthyStart(job: Job, r0: Run)
    requires r0.ok && r0.done == [] && r0.writes == [] && job.mp4 in r0.local
    ensures Healthy(job, r0.objects, 0, r0)
  {
    assert WrittenKeys([]) == [] == StageKeys(job.folder, job.base, []);
  }

  /** One stage of a run where nothing can fail succeeds and keeps the
      inputs of the later stages in the temporary directory. */
  lemma StepSucceeds(job: Job, k: nat, before: map<string, StoredObject>, r: Run)
    requires k < |Stages| && PlainFolder(job.folder) && NothingFails(job, before)
    requires Healthy(job, before, k, r)
    ensures Healthy(job, before, k + 1, Next(job, k, r))
  {
    var a := Stages[k];
    if Missing(job.st, a) {
      StageProduced(job, k, before, r);
      assert Step(job, k, r) == Produce(job, a, r);
    } else {
      StageFetched(job, k, before, r);
    }
  }

  /** An existing stage of a run where nothing can fail is skipped or its
      object is downloaded, which succeeds. */
  lemma StageFetched(job: Job, k: nat, before: map<string, StoredObject>, r: Run)
    requires k < |Stages| && NothingFails(job, before) && !Missing(job.st, Stages[k])
    requires Healthy(job, before, k, r)
    ensures Healthy(job, before, k + 1, Step(job, k, r))
  {
    var a := Stages[k];
    if a == Wav {
      if NeedsWav(job.st) {
        AnswersKept(before, r.objects, job.unreachable, job.folder, job.base, r.done, r.writes,
                    ObjectName(job.folder, ArtifactFile(job.base, Wav)));
      }
      assert Step(job, k, r) == Fetch(job, NeedsWav(job.st), Wav, r);
    } else if a == Txt {
      if NeedsTranscript(job.st) {
        AnswersKept(before, r.objects, job.unreachable, job.folder, job.base, r.done, r.writes,
                    ObjectName(job.folder, ArtifactFile(job.base, Txt)));
      }
      assert Step(job, k, r) == Fetch(job, NeedsTranscript(job.st), Txt, r);
    } else {
      assert Step(job, k, r) == r;
    }
  }

  /** A missing stage of a run where nothing can fail is produced: its tool
      finds its input and succeeds, and its object accepts the upload. */
  lemma StageProduced(job: Job, k: nat, before: map<string, StoredObject>, r: Run)
    requires k < |Stages| && PlainFolder(job.folder) && NothingFails(job, before)
    requires Missing(job.st, Stages[k]) && Healthy(job, before, k, r)
    ensures Healthy(job, before, k + 1, Produce(job, Stages[k], r))
  {
    StageOutputSome(job, k, before, r);
    ProducedHealthy(job, k, before, r);
  }

  /** A stage whose tool gives a result and whose object accepts the upload
      keeps the run healthy. */
  lemma ProducedHealthy(job: Job, k: nat, before: map<string, StoredObject>, r: Run)
    requires k < |Stages| && Healthy(job, before, k, r)
    requires StageOutput(job, r, Stages[k]).Some? && StageObject(job.folder, job.base, Stages[k]) !in job.unreachable
    ensures Healthy(job, before, k + 1, Produce(job, Stages[k], r))
  {
    var a := Stages[k];
    assert a != Json && (k == 0 ==> a == Wav) && (k == 1 ==> a == Txt);
    var key, o := StageObject(job.folder, job.base, a), StageStored(job, a, StageOutput(job, r, a).value);
    ProduceSucceeds(job, a, r);
    WroteStep(before, r.objects, job.unreachable, job.folder, job.base, r.done, r.writes, a, o);
    var r' := Produce(job, a, r);
    assert Json !in r'.done && job.mp4 in r'.local;
    assert Wrote(before, r'.objects, job.unreachable, job.folder, job.base, r'.done, r'.writes);
  }

  /** What a stage that runs does to the bucket and to the record of the run. */
  lemma ProduceShape(job: Job, a: Artifact, r: Run)
    ensures var r' := Produce(job, a, r);
      var out := StageOutput(job, r, a);
      var key := StageObject(job.folder, job.base, a);
      var o := StageStored(job, a, if out.Some? then out.value else []);
      r'.ok == (out.Some? && key !in job.unreachable)
      && r'.objects == (if r'.ok then r.objects[key := o] else r.objects)
      && r'.done == (if r'.ok then r.done + [a] else r.done)
      && r'.writes == (if r'.ok then r.writes + [Write(key, o)] else r.writes)
  {
  }

  /** A stage whose tool gives a result and whose object accepts the upload
      succeeds, uploads that result and keeps its output locally. */
  lemma ProduceSucceeds(job: Job, a: Artifact, r: Run)
    requires StageOutput(job, r, a).Some? && StageObject(job.folder, job.base, a) !in job.unreachable
    ensures var r' := Produce(job, a, r);
      var key := StageObject(job.folder, job.base, a);
      var o := StageStored(job, a, StageOutput(job, r, a).value);
      r'.ok && r'.objects == r.objects[key := o] && r'.done == r.done + [a] && r'.writes == r.writes + [Write(key, o)]
      && r.local.Keys <= r'.local.Keys && (a == Wav || a == Txt ==> ArtifactFile(job.base, a) in r'.local)
  {
  }

  /** The tool of a missing stage, in a run where nothing can fail, gives a
      result. */
  lemma StageOutputSome(job: Job, k: nat, before: map<string, StoredObject>, r: Run)
    requires k < |Stages| && PlainFolder(job.folder) && NothingFails(job, before)
    requires Missing(job.st, Stages[k]) && Healthy(job, before, k, r)
    ensures StageOutput(job, r, Stages[k]).Some?
  {
    if Stages[k] == Thumbnail {
      ThumbnailOutputSome(job, before, r);
    } else {
      ToolOutputSome(job, k, r);
    }
  }

  /** A missing wav, transcript, analysis or post is made when its tool
      always succeeds and its input is in the temporary directory. */
  lemma ToolOutputSome(job: Job, k: nat, r: Run)
    requires k < |Stages| && Stages[k] != Thumbnail && Missing(job.st, Stages[k])
    requires (forall b :: job.tools.extractAudio(b).Some?) && (forall b :: job.tools.transcribe(b).Some?)
    requires (forall b :: job.tools.analyze(b).Some?) && (forall b :: job.tools.writeLinkedinPost(b).Some?)
    requires job.mp4 in r.local
    requires k >= 1 && NeedsWav(job.st) ==> ArtifactFile(job.base, Wav) in r.local
    requires k >= 2 && NeedsTranscript(job.st) ==> ArtifactFile(job.base, Txt) in r.local
    ensures StageOutput(job, r, Stages[k]).Some?
  {
    var a := Stages[k];
    if a == Wav {
      assert job.tools.extractAudio(r.local[job.mp4]).Some?;
    } else if a == Txt {
      assert NeedsWav(job.st);
      assert job.tools.transcribe(r.local[ArtifactFile(job.base, Wav)]).Some?;
    } else if a == Analysis {
      assert NeedsTranscript(job.st);
      assert job.tools.analyze(r.local[ArtifactFile(job.base, Txt)]).Some?;
    } else {
      assert NeedsTranscript(job.st);
      assert job.tools.writeLinkedinPost(r.local[ArtifactFile(job.base, Txt)]).Some?;
    }
  }

  /** A missing thumbnail, in a run where nothing can fail, can be fetched. */
  lemma ThumbnailOutputSome(job: Job, before: map<string, StoredObject>, r: Run)
    requires PlainFolder(job.folder) && ThumbnailFetched(job.tools, before, job.unreachable, job.folder, job.base).Some?
    requires Json !in r.done && Wrote(before, r.objects, job.unreachable, job.folder, job.base, r.done, r.writes)
    ensures StageOutput(job, r, Thumbnail).Some?
  {
    ThumbnailInputKept(job, before, r);
  }

  /** The stages never write the `.json` object, so the thumbnail the stage
      fetches is the one the bucket described before the run. */
  lemma ThumbnailInputKept(job: Job, before: map<string, StoredObject>, r: Run)
    requires PlainFolder(job.folder) && Json !in r.done
    requires Wrote(before, r.objects, job.unreachable, job.folder, job.base, r.done, r.writes)
    ensures ThumbnailFetched(job.tools, r.objects, job.unreachable, job.folder, job.base)
         == ThumbnailFetched(job.tools, before, job.unreachable, job.folder, job.base)
  {
    var json := ObjectName(job.folder, ArtifactFile(job.base, Json));
    forall j | 0 <= j < |r.done|
      ensures StageObject(job.folder, job.base, r.done[j]) != json
    {
      assert r.done[j] in r.done;
      StageObjectOfPlain(job.folder, job.base, r.done[j]);
      ProbeNamesDistinct(job.folder, job.base, r.done[j], Json);
    }
    WroteFrame(before, r.objects, job.unreachable, job.folder, job.base, r.done, r.writes, json);
  }

  /** A run cannot fail on its own: when the mp4 answers, every tool gives a
      result, the thumbnail (if missing) can be fetched and every pending
      stage's object accepts its upload, the run succeeds and executes
      exactly the pending stages. */
  lemma VideoRunSucceeds(v: Variant, force: bool, tools: Tools, folder: string, mp4: string,
                         before: map<string, StoredObject>, unreachable: set<string>, accessed: seq<string>)
    requires PlainFolder(folder) && Answers(before, unreachable, ObjectName(folder, mp4))
    requires (forall b :: tools.extractAudio(b).Some?) && (forall b :: tools.transcribe(b).Some?)
    requires (forall b :: tools.analyze(b).Some?) && (forall b :: tools.writeLinkedinPost(b).Some?)
    requires var st := StartSnapshot(v, force, before, unreachable, folder, Base(mp4));
      (Missing(st, Thumbnail) ==> ThumbnailFetched(tools, before, unreachable, folder, Base(mp4)).Some?)
      && (forall a :: a in Pending(st) ==> StageObject(folder, Base(mp4), a) !in unreachable)
    ensures var r := VideoRun(v, force, tools, folder, mp4, before, unreachable, accessed);
      r.ok && r.done == Pending(StartSnapshot(v, force, before, unreachable, folder, Base(mp4)))
  {
    var base := Base(mp4);
    var st := StartSnapshot(v, force, before, unreachable, folder, base);
    if !force && AllPresent(st) {
      PendingEmpty(st);
    } else {
      var key := ObjectName(folder, mp4);
      var job := Job(v, tools, folder, mp4, base, st, unreachable);
      var probed := if force then accessed else accessed + ProbeNames(folder, base, v);
      var r0 := Run(true, before, map[][mp4 := before[key].data], probed + [key] + [key], [], []);
      StartSnapshotSound(v, force, before, unreachable, folder, base, Wav);
      StartSnapshotSound(v, force, before, unreachable, folder, base, Txt);
      assert Wav in CheckedArtifacts(v) && Txt in CheckedArtifacts(v);
      forall i | 0 <= i < |Stages| && Missing(st, Stages[i])
        ensures StageObject(folder, base, Stages[i]) !in unreachable
      {
        PendingMembers(st, Stages[i]);
      }
      HealthyStart(job, r0);
      RunThroughSucceeds(job, |Stages|, r0);
      RunThroughProgress(job, |Stages|, r0);
    }
  }

  /** What a run on a video promises about its result and the bucket: a run
      whose probe finds everything succeeds untouched, a run whose mp4 is not
      found fails untouched, a run with nothing to produce leaves the bucket
      as it was and succeeds exactly when its downloads do, and otherwise the
      pending stages run in order until the first failure, each writing its
      object. */
  lemma VideoRunShape(v: Variant, force: bool, tools: Tools, folder: string, mp4: string,
                      before: map<string, StoredObject>, unreachable: set<string>, accessed: seq<string>)
    ensures var base := Base(mp4);
      var st := StartSnapshot(v, force, before, unreachable, folder, base);
      var skipped := !force && AllPresent(st);
      var found := Answers(before, unreachable, ObjectName(folder, mp4));
      var r := VideoRun(v, force, tools, folder, mp4, before, unreachable, accessed);
      (skipped ==> r.ok && r.objects == before && r.done == [])
      && (!skipped && !found ==> !r.ok && r.objects == before && r.done == [])
      && (Pending(st) == [] ==>
            r.objects == before && (!skipped ==> (r.ok <==> DownloadsAnswer(before, unreachable, folder, mp4, base, st))))
      && Progress(st, |Stages|, before, r.objects, unreachable, folder, base, r.ok, r.done, r.writes)
  {
    var base := Base(mp4);
    var st := StartSnapshot(v, force, before, unreachable, folder, base);
    var key := ObjectName(folder, mp4);
    if !force && AllPresent(st) {
      PendingEmpty(st);
    } else if Answers(before, unreachable, key) {
      var job := Job(v, tools, folder, mp4, base, st, unreachable);
      var probed := if force then accessed else accessed + ProbeNames(folder, base, v);
      var r0 := Run(true, before, map[][mp4 := before[key].data], probed + [key] + [key], [], []);
      RunThroughProgress(job, |Stages|, r0);
      if Pending(st) == [] {
        forall k | 0 <= k < |Stages|
          ensures !Missing(st, Stages[k])
        {
          PendingMembers(st, Stages[k]);
        }
        QuietRunThrough(job, |Stages|, r0);
      }
    }
  }

  /** The requests of a run: without force the probes come first and, when
      they find everything, nothing follows; with force the first request is
      the mp4's existence check. */
  lemma VideoRequestsShape(v: Variant, force: bool, tools: Tools, folder: string, mp4: string,
                           before: map<string, StoredObject>, unreachable: set<string>, accessed: seq<string>)
    ensures var base := Base(mp4);
      var r := VideoRun(v, force, tools, folder, mp4, before, unreachable, accessed);
      accessed <= r.requests
      && (!force ==> accessed + ProbeNames(folder, base, v) <= r.requests)
      && (!force && AllPresent(Probe(before, unreachable, folder, base, v)) ==>
            r.requests == accessed + ProbeNames(folder, base, v))
      && (force ==> |r.requests| > |accessed| && r.requests[|accessed|] == ObjectName(folder, mp4))
  {
    var base := Base(mp4);
    var st := StartSnapshot(v, force, before, unreachable, folder, base);
    var key := ObjectName(folder, mp4);
    var probed := if force then accessed else accessed + ProbeNames(folder, base, v);
    if (force || !AllPresent(st)) && Answers(before, unreachable, key) {
      var job := Job(v, tools, folder, mp4, base, st, unreachable);
      var r0 := Run(true, before, map[][mp4 := before[key].data], probed + [key] + [key], [], []);
      RunThroughRequestsGrow(job, |Stages|, r0);
      assert (probed + [key] + [key])[|accessed|] == if force then key else probed[|accessed|];
    }
  }

  /** Resumability: after a successful run, running again without force on a
      folder where both naming rules agree executes no stage, writes nothing
      and succeeds. */
  lemma RerunAfterSuccess(v: Variant, force: bool, tools: Tools, folder: string, mp4: string,
                          before: map<string, StoredObject>, after: map<string, StoredObject>, unreachable: set<string>,
                          done: seq<Artifact>, writes: seq<Write>, after2: map<string, StoredObject>, ok2: bool,
                          done2: seq<Artifact>, writes2: seq<Write>)
    requires PlainFolder(folder)
    requires VideoOutcome(v, force, tools, folder, mp4, before, after, unreachable, true, done, writes)
    requires VideoOutcome(v, false, tools, folder, mp4, after, after2, unreachable, ok2, done2, writes2)
    ensures ok2 && done2 == [] && after2 == after
  {
    var base := Base(mp4);
    var st := StartSnapshot(v, force, before, unreachable, folder, base);
    VideoRunShape(v, force, tools, folder, mp4, before, unreachable, []);
    VideoRunShape(v, false, tools, folder, mp4, after, unreachable, []);
    if force || !AllPresent(st) {
      var st2 := Probe(after, unreachable, folder, base, v);
      NothingPendingAfter(v, force, before, after, unreachable, folder, base, writes);
      AnswersKept(before, after, unreachable, folder, base, done, writes, ObjectName(folder, mp4));
      PendingEmpty(st2);
      DownloadsAnswerAfter(v, after, unreachable, folder, mp4, base);
    }
  }

  /** The stages a run has executed are always the pending stages of some
      first `m` stages. */
  lemma {:induction false} PrefixOfPendingThrough(st: Snapshot, n: nat, done: seq<Artifact>) returns (m: nat)
    requires n <= |Stages| && done <= PendingThrough(st, n)
    ensures m <= n && done == PendingThrough(st, m)
  {
    if done == PendingThrough(st, n) {
      return n;
    }
    var init := PendingThrough(st, n - 1);
    assert |done| <= |init|;
    assert done <= init by {
      assert forall i :: 0 <= i < |done| ==> done[i] == PendingThrough(st, n)[i] == init[i];
    }
    m := PrefixOfPendingThrough(st, n - 1, done);
  }

  /** After a run from the probed snapshot `st` that executed the pending
      stages of the first `m` stages, a new probe reports a stage missing
      exactly when `st` did and the stage comes at or after position `m`. */
  lemma MissingAfter(v: Variant, before: map<string, StoredObject>, after: map<string, StoredObject>,
                     unreachable: set<string>, folder: string, base: string, m: nat, writes: seq<Write>, i: nat)
    requires PlainFolder(folder) && m <= |Stages| && i < |Stages|
    requires Wrote(before, after, unreachable, folder, base,
                   PendingThrough(Probe(before, unreachable, folder, base, v), m), writes)
    ensures Missing(Probe(after, unreachable, folder, base, v), Stages[i]) <==>
            Missing(Probe(before, unreachable, folder, base, v), Stages[i]) && i >= m
  {
    var a := Stages[i];
    ProbeEntries(before, unreachable, folder, base, v, a);
    ProbeEntries(after, unreachable, folder, base, v, a);
    if a in CheckedArtifacts(v) {
      if i < m {
        ReachedStageFound(v, before, after, unreachable, folder, base, m, writes, i);
      } else {
        UnreachedStageKept(v, before, after, unreachable, folder, base, m, writes, i);
      }
    }
  }

  /** A probed stage among the first `m` answers after the run: it was
      either there already or written by the run. */
  lemma ReachedStageFound(v: Variant, before: map<string, StoredObject>, after: map<string, StoredObject>,
                          unreachable: set<string>, folder: string, base: string, m: nat, writes: seq<Write>, i: nat)
    requires PlainFolder(folder) && i < m <= |Stages|
    requires Wrote(before, after, unreachable, folder, base,
                   PendingThrough(Probe(before, unreachable, folder, base, v), m), writes)
    requires Stages[i] in Probe(before, unreachable, folder, base, v)
    ensures Answers(after, unreachable, ObjectName(folder, ArtifactFile(base, Stages[i])))
  {
    var st := Probe(before, unreachable, folder, base, v);
    var done := PendingThrough(st, m);
    var a := Stages[i];
    StageObjectOfPlain(folder, base, a);
    PendingThroughMembers(st, m, a);
    assert Stages[..m][i] == a;
    if Missing(st, a) {
      WrittenAnswers(before, after, unreachable, folder, base, done, writes, a);
    } else {
      ProbeEntries(before, unreachable, folder, base, v, a);
      AnswersKept(before, after, unreachable, folder, base, done, writes, ObjectName(folder, ArtifactFile(base, a)));
    }
  }

  /** A stage at or after position `m` is not written by a run that executed
      the pending stages of the first `m`: its object is as it was. */
  lemma UnreachedStageKept(v: Variant, before: map<string, StoredObject>, after: map<string, StoredObject>,
                           unreachable: set<string>, folder: string, base: string, m: nat, writes: seq<Write>, i: nat)
    requires PlainFolder(folder) && m <= i < |Stages|
    requires Wrote(before, after, unreachable, folder, base,
                   PendingThrough(Probe(before, unreachable, folder, base, v), m), writes)
    ensures var name := ObjectName(folder, ArtifactFile(base, Stages[i]));
      Answers(after, unreachable, name) == Answers(before, unreachable, name)
  {
    var st := Probe(before, unreachable, folder, base, v);
    var done := PendingThrough(st, m);
    var a := Stages[i];
    var name := ObjectName(folder, ArtifactFile(base, a));
    PendingThroughOrdered(st, m);
    assert StageIndex(a) == i;
    forall j | 0 <= j < |done|
      ensures StageObject(folder, base, done[j]) != name
    {
      StageObjectOfPlain(folder, base, done[j]);
      ProbeNamesDistinct(folder, base, done[j], a);
    }
    WroteFrame(before, after, unreachable, folder, base, done, writes, name);
  }

  /** A snapshot that agrees with `st` from position `m` on and reports
      nothing missing before it has as pending stages those of `st` after the
      first `m` stages. */
  lemma {:induction false} PendingThroughResume(st: Snapshot, st2: Snapshot, m: nat, n: nat)
    requires m <= |Stages| && n <= |Stages|
    requires forall i :: 0 <= i < |Stages| ==> (Missing(st2, Stages[i]) <==> Missing(st, Stages[i]) && i >= m)
    ensures n <= m ==> PendingThrough(st2, n) == []
    ensures m <= n ==> |PendingThrough(st, m)| <= |PendingThrough(st, n)|
                       && PendingThrough(st2, n) == PendingThrough(st, n)[|PendingThrough(st, m)|..]
  {
    if n > 0 {
      PendingThroughResume(st, st2, m, n - 1);
      var k := n - 1;
      assert Missing(st2, Stages[k]) <==> Missing(st, Stages[k]) && k >= m;
      if m == n {
        assert PendingThrough(st, n)[|PendingThrough(st, m)|..] == [];
      } else if m < n {
        PendingThroughPrefix(st, m, k);
        var p := PendingThrough(st, k);
        var x := if Missing(st, Stages[k]) then [Stages[k]] else [];
        assert PendingThrough(st, n) == p + x;
        SliceAppend(p, x, |PendingThrough(st, m)|);
      }
    }
  }

  lemma SliceAppend<T>(p: seq<T>, x: seq<T>, l: nat)
    requires l <= |p|
    ensures (p + x)[l..] == p[l..] + x
  {
  }

  /** Resumability after a failure: a run without force on a folder where
      both naming rules agree leaves exactly the stages it did not reach
      pending, so the next run starts where this one stopped. */
  lemma ResumeAfterRun(v: Variant, tools: Tools, folder: string, mp4: string, before: map<string, StoredObject>,
                       unreachable: set<string>)
    requires PlainFolder(folder)
    ensures var base := Base(mp4);
      var r := VideoRun(v, false, tools, folder, mp4, before, unreachable, []);
      var st := Probe(before, unreachable, folder, base, v);
      |r.done| <= |Pending(st)| && Pending(Probe(r.objects, unreachable, folder, base, v)) == Pending(st)[|r.done|..]
  {
    var base := Base(mp4);
    var st := Probe(before, unreachable, folder, base, v);
    var r := VideoRun(v, false, tools, folder, mp4, before, unreachable, []);
    var st2 := Probe(r.objects, unreachable, folder, base, v);
    VideoRunShape(v, false, tools, folder, mp4, before, unreachable, []);
    var m := PrefixOfPendingThrough(st, |Stages|, r.done);
    forall i | 0 <= i < |Stages|
      ensures Missing(st2, Stages[i]) <==> Missing(st, Stages[i]) && i >= m
    {
      MissingAfter(v, before, r.objects, unreachable, folder, base, m, r.writes, i);
    }
    PendingThroughResume(st, st2, m, |Stages|);
  }
  lemma EmptyFolderKeyDiffers(base: string, b: Artifact)
    requires Paths.NoSlash(base)
    ensures StageObject("", base, b) != ObjectName("", ArtifactFile(base, Txt))
  {
    TextObjectNameOfEmpty(ArtifactFile(base, Txt));
    if b == Wav || b == Thumbnail {
      ProbeNamesDistinct("", base, b, Txt);
    } else {
      var name := ArtifactFile(base, b);
      assert name[0] != '/' by {
        if base == [] {
          assert name == FileSuffix(b);
        } else {
          assert name[0] == base[0];
        }
      }
    }
  }

  /** With an empty folder a run never makes the transcript visible to the
      probe: the transcript is saved as `{base}.txt` but probed as
      `/{base}.txt`, so every later run transcribes again. */
  lemma EmptyFolderTranscriptStaysPending(v: Variant, before: map<string, StoredObject>,
                                          after: map<string, StoredObject>, unreachable: set<string>,
                                          base: string, done: seq<Artifact>, writes: seq<Write>)
    requires Paths.NoSlash(base)
    requires ObjectName("", ArtifactFile(base, Txt)) !in before
    requires Wrote(before, after, unreachable, "", base, done, writes)
    ensures Txt in Pending(Probe(after, unreachable, "", base, v))
  {
    var key := ObjectName("", ArtifactFile(base, Txt));
    forall i | 0 <= i < |done|
      ensures StageObject("", base, done[i]) != key
    {
      EmptyFolderKeyDiffers(base, done[i]);
    }
    WroteFrame(before, after, unreachable, "", base, done, writes, key);
    ProbeEntries(after, unreachable, "", base, v, Txt);
    PendingMembers(Probe(after, unreachable, "", base, v), Txt);
  }

  /** A playlist item processed as `downloads/{id}.mp4` is found at folder
      "downloads" under the name `{id}.mp4`. */
  lemma ParseDownloadsPath(id: string)
    requires Paths.IsPart(id + ".mp4")
    ensures ParseMinioPath("downloads/" + id + ".mp4") == MinioPath("downloads", id + ".mp4")
  {
    var p := Paths.PurePath(false, ["downloads", id + ".mp4"]);
    assert Paths.IsPart("downloads");
    assert p.parts[1..] == [id + ".mp4"];
    assert Join(p.parts[1..], "/") == id + ".mp4";
    assert Paths.PathString(p) == "downloads/" + id + ".mp4";
    Paths.ParseOfPathString(p);
    var parent := Paths.PurePath(false, ["downloads"]);
    assert Paths.Parent(p) == parent;
    assert Paths.PathString(parent) == "downloads";
  }

  /** A bare file name has the empty folder. */
  lemma ParseBareName(name: string)
    requires Paths.IsPart(name)
    ensures ParseMinioPath(name) == MinioPath("", name)
  {
    var p := Paths.PurePath(false, [name]);
    assert Paths.PathString(p) == name;
    Paths.ParseOfPathString(p);
  }

  /** One video's processing against one bucket. */
  class VideoProcessor {
    const store: MinioService
    const tools: Tools

    constructor (store: MinioService, tools: Tools)
      ensures this.store == store && this.tools == tools
    {
      this.store := store;
      this.tools := tools;
    }

    /** `check_files_exist`: one existence probe per artifact of the variant. */
    method CheckFilesExist(v: Variant, folder: string, base: string) returns (st: Snapshot)
      modifies store`accessed
      ensures st == Probe(store.objects, store.unreachable, folder, base, v)
      ensures store.accessed == old(store.accessed) + ProbeNames(folder, base, v)
    {
      var order := CheckedArtifacts(v);
      ghost var objects, unreachable := store.objects, store.unreachable;
      st := map[];
      var i := 0;
      while i < |order|
        invariant 0 <= i <= |order|
        invariant store.objects == objects && store.unreachable == unreachable
        invariant st == ProbeOf(objects, unreachable, folder, base, order[..i])
        invariant store.accessed == old(store.accessed) + ProbeNamesOf(folder, base, order[..i])
      {
        var found := store.ObjectExists(folder, ArtifactFile(base, order[i]));
        ProbeStep(objects, unreachable, folder, base, order, i);
        st := st[order[i] := found];
        i := i + 1;
      }
      assert order[..i] == order;
    }

    /** The processor's tools and bucket are those of `job`, and the bucket
        and its request log are those of the run `r`. */
    ghost predicate At(job: Job, r: Run)
      reads store
    {
      job.tools == tools && job.unreachable == store.unreachable && r.objects == store.objects
      && r.requests == store.accessed
    }

    /** `convert_audio`: extract the wav from the local mp4 and upload it. */
    method ConvertAudio(local: map<string, Bytes>, folder: string, mp4: string, base: string)
      returns (ok: bool, local': map<string, Bytes>)
      modifies store`objects, store`accessed
      ensures var wav := ArtifactFile(base, Wav);
        var out := RunTool(tools.extractAudio, local, mp4);
        var key := ObjectName(folder, wav);
        ok == (out.Some? && key !in store.unreachable)
        && store.objects == (if ok then old(store.objects)[key := StoredObject(out.value, DefaultContentType, WavMetadata(mp4))]
                             else old(store.objects))
        && local' == (if out.Some? then local[wav := out.value] else local)
        && store.accessed == (if out.Some? then old(store.accessed) + [key] else old(store.accessed))
    {
      var wav := ArtifactFile(base, Wav);
      var out := RunTool(tools.extractAudio, local, mp4);
      if out.None? {
        return false, local;
      }
      local' := local[wav := out.value];
      ok := store.SaveFile(local', wav, folder, Some(wav), WavMetadata(mp4));
    }

    /** Saves a text product made by `tool` from the local file `input` as the
        object `TextObjectName(folder, name)`. */
    method SaveTextProduct(tool: Bytes -> Option<Bytes>, local: map<string, Bytes>, input: string, folder: string,
                           name: string, metadata: map<string, string>) returns (ok: bool, out: Option<Bytes>)
      modifies store`objects, store`accessed
      ensures out == RunTool(tool, local, input)
      ensures var key := TextObjectName(folder, name);
        ok == (out.Some? && key !in store.unreachable)
        && store.objects == (if ok then old(store.objects)[key := StoredObject(out.value, TextPlain, metadata)]
                             else old(store.objects))
        && store.accessed == (if out.Some? then old(store.accessed) + [key] else old(store.accessed))
    {
      out := RunTool(tool, local, input);
      if out.None? {
        return false, out;
      }
      ok := store.Save(out.value, TextObjectName(folder, name), TextPlain, metadata);
    }

    /** `transcribe_audio`: transcribe the local wav; the transcript is left in
        the working directory under `{base}.txt` and uploaded. */
    method TranscribeAudio(local: map<string, Bytes>, folder: string, mp4: string, base: string)
      returns (ok: bool, local': map<string, Bytes>)
      modifies store`objects, store`accessed
      ensures var txt := ArtifactFile(base, Txt);
        var out := RunTool(tools.transcribe, local, ArtifactFile(base, Wav));
        var key := TextObjectName(folder, txt);
        ok == (out.Some? && key !in store.unreachable)
        && store.objects == (if ok then old(store.objects)[key := StoredObject(out.value, TextPlain,
                                                             TranscriptMetadata(ArtifactFile(base, Wav), mp4))]
                             else old(store.objects))
        && local' == (if out.Some? then local[txt := out.value] else local)
        && store.accessed == (if out.Some? then old(store.accessed) + [key] else old(store.accessed))
    {
      var txt := ArtifactFile(base, Txt);
      var out;
      ok, out := SaveTextProduct(tools.transcribe, local, ArtifactFile(base, Wav), folder, txt,
                                 TranscriptMetadata(ArtifactFile(base, Wav), mp4));
      local' := if out.Some? then local[txt := out.value] else local;
    }

    /** `generate_analysis`: analyse the local transcript and upload the result. */
    method GenerateAnalysis(local: map<string, Bytes>, folder: string, mp4: string, base: string) returns (ok: bool)
      modifies store`objects, store`accessed
      ensures var out := RunTool(tools.analyze, local, ArtifactFile(base, Txt));
        var key := TextObjectName(folder, ArtifactFile(base, Analysis));
        ok == (out.Some? && key !in store.unreachable)
        && store.objects == (if ok then old(store.objects)[key := StoredObject(out.value, TextPlain,
                                                             AnalysisMetadata(ArtifactFile(base, Txt), mp4))]
                             else old(store.objects))
        && store.accessed == (if out.Some? then old(store.accessed) + [key] else old(store.accessed))
    {
      var out;
      ok, out := SaveTextProduct(tools.analyze, local, ArtifactFile(base, Txt), folder, ArtifactFile(base, Analysis),
                                 AnalysisMetadata(ArtifactFile(base, Txt), mp4));
    }

    /** `generate_linkedin_post`: write the LinkedIn post from the local
        transcript and upload it. */
    method GenerateLinkedinPost(local: map<string, Bytes>, folder: string, mp4: string, base: string) returns (ok: bool)
      modifies store`objects, store`accessed
      ensures var out := RunTool(tools.writeLinkedinPost, local, ArtifactFile(base, Txt));
        var key := TextObjectName(folder, ArtifactFile(base, Linkedin));
        ok == (out.Some? && key !in store.unreachable)
        && store.objects == (if ok then old(store.objects)[key := StoredObject(out.value, TextPlain,
                                                             LinkedinMetadata(ArtifactFile(base, Txt), mp4))]
                             else old(store.objects))
        && store.accessed == (if out.Some? then old(store.accessed) + [key] else old(store.accessed))
    {
      var out;
      ok, out := SaveTextProduct(tools.writeLinkedinPost, local, ArtifactFile(base, Txt), folder,
                                 ArtifactFile(base, Linkedin), LinkedinMetadata(ArtifactFile(base, Txt), mp4));
    }

    /** `download_and_upload_thumbnail`: read the video's `.json` metadata from
        the bucket, fetch the chosen thumbnail and upload it as `.webp`. */
    method DownloadAndUploadThumbnail(local: map<string, Bytes>, folder: string, mp4: string, base: string)
      returns (ok: bool, local': map<string, Bytes>)
      modifies store`objects, store`accessed
      ensures var out := ThumbnailFetched(tools, old(store.objects), store.unreachable, folder, base);
        var key := ObjectName(folder, ArtifactFile(base, Thumbnail));
        var read := ThumbnailReads(old(store.accessed), old(store.objects), store.unreachable, folder, base);
        ok == (out.Some? && key !in store.unreachable)
        && store.objects == (if ok then old(store.objects)[key := StoredObject(out.value, DefaultContentType,
                                                                               ThumbnailMetadata(mp4))]
                             else old(store.objects))
        && local' == (if out.Some? then local[ArtifactFile(base, Thumbnail) := out.value] else local)
        && store.accessed == (if out.Some? then read + [key] else read)
    {
      ghost var out := ThumbnailFetched(tools, store.objects, store.unreachable, folder, base);
      ghost var read := ThumbnailReads(store.accessed, store.objects, store.unreachable, folder, base);
      local' := local;
      var json := ArtifactFile(base, Json);
      var present := store.ObjectExists(folder, json);
      if !present {
        assert out == None && store.accessed == read;
        return false, local';
      }
      var data := store.Retrieve(folder, json);
      assert store.accessed == read;
      if data.None? || data.value == [] {
        assert out == None;
        return false, local';
      }
      var metadata := tools.decodeMetadata(data.value);
      if metadata.None? {
        assert out == None;
        return false, local';
      }
      var thumbnail, k := Video.DownloadThumbnail(metadata.value, tools.fetch);
      assert thumbnail == out;
      if thumbnail.None? {
        return false, local';
      }
      var webp := ArtifactFile(base, Thumbnail);
      local' := local[webp := thumbnail.value];
      ok := store.SaveFile(local', webp, folder, Some(webp), ThumbnailMetadata(mp4));
    }

    /** The object-info request `test_minio.py` makes after each upload;
        its answer is only logged. */
    method LogInfo(v: Variant, folder: string, filename: string)
      modifies store`accessed
      ensures store.accessed == if v == FourStage then old(store.accessed) + [ObjectName(folder, filename)]
                                else old(store.accessed)
    {
      if v == FourStage {
        var _ := store.GetObjectInfo(folder, filename);
      }
    }

    /** An existing input is downloaded into the working directory only when
        `needed`; a failed download fails the stage. */
    method FetchIfNeeded(needed: bool, local: map<string, Bytes>, folder: string, name: string)
      returns (ok: bool, local': map<string, Bytes>)
      modifies store`accessed
      ensures var key := ObjectName(folder, name);
        var got := Answers(store.objects, store.unreachable, key);
        ok == (needed ==> got)
        && local' == (if needed && got then local[name := store.objects[key].data] else local)
        && store.accessed == (if needed then old(store.accessed) + [key] else old(store.accessed))
    {
      ok, local' := true, local;
      if needed {
        ok, local' := store.RetrieveToFile(folder, name, name, local);
      }
    }

    /** The wav stage: extract and upload the wav when it is missing,
        otherwise download it when a later product reads it. */
    method WavStep(job: Job, local: map<string, Bytes>, ghost r: Run)
      returns (ok: bool, local': map<string, Bytes>, ghost r': Run)
      requires At(job, r) && r.ok && r.local == local
      modifies store`objects, store`accessed
      ensures r' == Step(job, 0, r) && ok == r'.ok && At(job, r') && r'.local == local'
    {
      r' := Step(job, 0, r);
      var wav := ArtifactFile(job.base, Wav);
      if Missing(job.st, Wav) {
        ok, local' := ConvertAudio(local, job.folder, job.mp4, job.base);
        if ok {
          LogInfo(job.v, job.folder, wav);
        }
      } else {
        ok, local' := FetchIfNeeded(NeedsWav(job.st), local, job.folder, wav);
      }
    }

    /** The transcript stage: transcribe and upload when missing, otherwise
        download it when a product made from it is missing. */
    method TxtStep(job: Job, local: map<string, Bytes>, ghost r: Run)
      returns (ok: bool, local': map<string, Bytes>, ghost r': Run)
      requires At(job, r) && r.ok && r.local == local
      modifies store`objects, store`accessed
      ensures r' == Step(job, 1, r) && ok == r'.ok && At(job, r') && r'.local == local'
    {
      r' := Step(job, 1, r);
      var txt := ArtifactFile(job.base, Txt);
      if Missing(job.st, Txt) {
        ok, local' := TranscribeAudio(local, job.folder, job.mp4, job.base);
        if ok {
          LogInfo(job.v, job.folder, txt);
        }
      } else {
        ok, local' := FetchIfNeeded(NeedsTranscript(job.st), local, job.folder, txt);
      }
    }

    /** The thumbnail stage, run only when the thumbnail is missing. */
    method ThumbnailStep(job: Job, local: map<string, Bytes>, ghost r: Run)
      returns (ok: bool, local': map<string, Bytes>, ghost r': Run)
      requires At(job, r) && r.ok && r.local == local
      modifies store`objects, store`accessed
      ensures r' == Step(job, 2, r) && ok == r'.ok && At(job, r') && r'.local == local'
    {
      r' := Step(job, 2, r);
      if !Missing(job.st, Thumbnail) {
        return true, local, r';
      }
      ok, local' := DownloadAndUploadThumbnail(local, job.folder, job.mp4, job.base);
    }

    /** The analysis stage, run only when the analysis is missing. */
    method AnalysisStep(job: Job, local: map<string, Bytes>, ghost r: Run) returns (ok: bool, ghost r': Run)
      requires At(job, r) && r.ok && r.local == local
      modifies store`objects, store`accessed
      ensures r' == Step(job, 3, r) && ok == r'.ok && At(job, r') && r'.local == local
    {
      r' := Step(job, 3, r);
      if !Missing(job.st, Analysis) {
        return true, r';
      }
      ok := GenerateAnalysis(local, job.folder, job.mp4, job.base);
      if ok {
        LogInfo(job.v, job.folder, ArtifactFile(job.base, Analysis));
      }
    }

    /** The LinkedIn stage, run only when the post is missing. */
    method LinkedinStep(job: Job, local: map<string, Bytes>, ghost r: Run) returns (ok: bool, ghost r': Run)
      requires At(job, r) && r.ok && r.local == local
      modifies store`objects, store`accessed
      ensures r' == Step(job, 4, r) && ok == r'.ok && At(job, r')
    {
      r' := Step(job, 4, r);
      if !Missing(job.st, Linkedin) {
        return true, r';
      }
      ok := GenerateLinkedinPost(local, job.folder, job.mp4, job.base);
      if ok {
        LogInfo(job.v, job.folder, ArtifactFile(job.base, Linkedin));
      }
    }

    /** The wav and transcript stages. */
    method AudioSteps(job: Job, local: map<string, Bytes>, ghost r0: Run)
      returns (ok: bool, local': map<string, Bytes>, ghost r: Run)
      requires At(job, r0) && r0.ok && r0.local == local
      modifies store`objects, store`accessed
      ensures r == RunThrough(job, 2, r0) && ok == r.ok && At(job, r) && r.local == local'
    {
      ok, local', r := WavStep(job, local, r0);
      assert r == RunThrough(job, 1, r0);
      if !ok {
        return;
      }
      ok, local', r := TxtStep(job, local', r);
    }

    /** The thumbnail, analysis and LinkedIn stages, after the audio stages succeeded. */
    method ProductSteps(job: Job, local: map<string, Bytes>, ghost r0: Run, ghost r: Run)
      returns (ok: bool, ghost r': Run)
      requires r == RunThrough(job, 2, r0) && r.ok && At(job, r) && r.local == local
      modifies store`objects, store`accessed
      ensures r' == RunThrough(job, |Stages|, r0) && ok == r'.ok && At(job, r')
    {
      var local';
      ok, local', r' := ThumbnailStep(job, local, r);
      assert r' == RunThrough(job, 3, r0);
      if !ok {
        RunThroughStopped(job, 3, |Stages|, r0);
        return;
      }
      ok, r' := AnalysisStep(job, local', r');
      assert r' == RunThrough(job, 4, r0);
      if !ok {
        RunThroughStopped(job, 4, |Stages|, r0);
        return;
      }
      ok, r' := LinkedinStep(job, local', r');
    }

    /** The five stages in order once the mp4 is local, stopping at the first failure. */
    method StagesFrom(job: Job, local: map<string, Bytes>, ghost r0: Run) returns (ok: bool, ghost r: Run)
      requires At(job, r0) && r0.ok && r0.local == local
      modifies store`objects, store`accessed
      ensures r == RunThrough(job, |Stages|, r0) && ok == r.ok && At(job, r)
    {
      var local';
      ok, local', r := AudioSteps(job, local, r0);
      if !ok {
        RunThroughStopped(job, 2, |Stages|, r0);
        return;
      }
      ok, r := ProductSteps(job, local', r0, r);
    }

    /** The run after the mp4 was found: download it, then the stages. */
    method RunStages(job: Job, ghost r0: Run) returns (ok: bool, ghost r: Run)
      requires At(job, r0) && r0.ok && r0.local == map[]
      modifies store`objects, store`accessed
      ensures r == StagesRun(job, r0) && ok == r.ok && At(job, r)
    {
      var got, local := store.RetrieveToFile(job.folder, job.mp4, job.mp4, map[]);
      if !got {
        return false, StagesRun(job, r0);
      }
      ok, r := StagesFrom(job, local, r0.(local := local, requests := store.accessed));
    }

    /** A run on the video `mp4` of `folder`: probe (unless forced), skip
        when everything exists, check the mp4, then run the stages. */
    method RunVideo(v: Variant, folder: string, mp4: string, force: bool)
      returns (ok: bool, ghost done: seq<Artifact>, ghost writes: seq<Write>)
      modifies store`objects, store`accessed
      ensures var r := VideoRun(v, force, tools, folder, mp4, old(store.objects), store.unreachable, old(store.accessed));
        ok == r.ok && store.objects == r.objects && store.accessed == r.requests && done == r.done && writes == r.writes
      ensures VideoOutcome(v, force, tools, folder, mp4, old(store.objects), store.objects, store.unreachable, ok, done,
                           writes)
    {
      VideoRunIgnoresRequests(v, force, tools, folder, mp4, store.objects, store.unreachable, store.accessed, []);
      var base := Base(mp4);
      var st;
      if !force {
        st := CheckFilesExist(v, folder, base);
        if AllPresent(st) {
          return true, [], [];
        }
      } else {
        st := Forced(v);
      }
      var found := store.ObjectExists(folder, mp4);
      if !found {
        if v == FourStage {
          var _ := store.ListObjects(folder, false);
        }
        return false, [], [];
      }
      var job := Job(v, tools, folder, mp4, base, st, store.unreachable);
      ghost var r;
      ok, r := RunStages(job, Run(true, store.objects, map[], store.accessed, [], []));
      done, writes := r.done, r.writes;
    }

    /** `process_video` (variant `Current`) and `convert_mp4_to_wav_and_transcribe`
        (variant `FourStage`). */
    method RunPipeline(v: Variant, minioPath: string, force: bool)
      returns (ok: bool, ghost done: seq<Artifact>, ghost writes: seq<Write>)
      modifies store`objects, store`accessed
      ensures Outcome(v, force, tools, minioPath, old(store.objects), store.objects, store.unreachable, ok, done, writes)
      ensures Requests(v, force, tools, minioPath, old(store.objects), store.unreachable, old(store.accessed),
                       store.accessed)
    {
      var path := ParseMinioPath(minioPath);
      if !IsMp4Name(path.filename) {
        return false, [], [];
      }
      ok, done, writes := RunVideo(v, path.folder, path.filename, force);
    }

    /** `VideoProcessor.process_video`. */
    method ProcessVideo(minioPath: string, force: bool) returns (ok: bool, ghost done: seq<Artifact>, ghost writes: seq<Write>)
      modifies store`objects, store`accessed
      ensures Outcome(Current, force, tools, minioPath, old(store.objects), store.objects, store.unreachable, ok, done,
                      writes)
      ensures Requests(Current, force, tools, minioPath, old(store.objects), store.unreachable, old(store.accessed),
                       store.accessed)
    {
      ok, done, writes := RunPipeline(Current, minioPath, force);
    }

    /** `convert_mp4_to_wav_and_transcribe` of `test_minio.py`. */
    method ConvertMp4ToWavAndTranscribe(minioPath: string, force: bool)
      returns (ok: bool, ghost done: seq<Artifact>, ghost writes: seq<Write>)
      modifies store`objects, store`accessed
      ensures Outcome(FourStage, force, tools, minioPath, old(store.objects), store.objects, store.unreachable, ok, done,
                      writes)
      ensures Requests(FourStage, force, tools, minioPath, old(store.objects), store.unreachable, old(store.accessed),
                       store.accessed)
    {
      ok, done, writes := RunPipeline(FourStage, minioPath, force);
    }
  }
}
