/** `YouTubeAnalyzer` of `services/youtube_analyzer.py`: download a video,
    extract its audio, transcribe it, then write the analysis and the
    LinkedIn post, recording each product's file in a result record. The
    download, audio, transcription and language-model services are oracles;
    the optional MinIO upload of the downloaded video uses the store model. */
module Analyzer {
  import opened Wrappers
  import opened Text
  import ObjectStore
  import Paths

  /** The `result` dictionary. The language probability is a float and is
      kept as its rendered text. */
  datatype AnalysisResult = AnalysisResult(
    videoId: string,
    videoFile: Option<string>,
    audioFile: Option<string>,
    transcriptionFile: Option<string>,
    analysisFile: Option<string>,
    linkedinPostFile: Option<string>,
    language: Option<string>,
    languageProbability: Option<string>,
    success: bool,
    error: Option<string>)

  /** The record before any step has run. */
  function InitialResult(videoId: string): (r: AnalysisResult)
    ensures r.videoId == videoId && !r.success && r.error.None?
    ensures r.videoFile.None? && r.audioFile.None? && r.transcriptionFile.None?
    ensures r.analysisFile.None? && r.linkedinPostFile.None? && r.language.None? && r.languageProbability.None?
  {
    AnalysisResult(videoId, None, None, None, None, None, None, None, false, None)
  }

  /** The arguments of `analyze_youtube_video`. */
  datatype Request = Request(
    videoId: string, outputPath: string, resolution: string, modelSize: string,
    downloadOnly: bool, transcribeOnly: bool, usePersonaTranscription: bool,
    enableAnalysis: bool, enableLinkedinPost: bool)

  datatype TranscriptionInfo = TranscriptionInfo(language: string, languageProbability: string)

  /** The services the analyzer calls; `Failure` is an exception. The
      transcription calls take whether the persona service is used. */
  datatype Tools = Tools(
    download: (string, string, string) -> Result<string, string>,
    extractAudio: string -> Result<string, string>,
    transcribe: (bool, string, string, string) -> Result<string, string>,
    transcriptionInfo: (bool, string) -> Result<TranscriptionInfo, string>,
    analyze: (string, string) -> Result<string, string>,
    linkedinPost: (string, string) -> Result<string, string>)

  /** The video file `transcribe_only` expects. */
  function ExpectedVideoFile(videoId: string, outputPath: string): (f: string)
    ensures EndsWith(f, videoId + ".mp4")
    ensures outputPath == "." ==> f == videoId + ".mp4"
    ensures outputPath != "." ==> StartsWith(f, outputPath + "/")
  {
    if outputPath == "." then videoId + ".mp4"
    else
      assert (outputPath + "/" + (videoId + ".mp4"))[..|outputPath| + 1] == outputPath + "/";
      outputPath + "/" + (videoId + ".mp4")
  }

  function FailureMessage(videoId: string, cause: string): string
  {
    "Analysis failed for video " + videoId + ": " + cause
  }

  /** The record after an exception escaped the steps. */
  function Failed(r: AnalysisResult, cause: string): AnalysisResult
  {
    r.(error := Some(FailureMessage(r.videoId, cause)))
  }

  /** An optional product: its file, or `None` when its generation raised. */
  function Produced(r: Result<string, string>): Option<string>
  {
    if r.Success? then Some(r.value) else None
  }

  /** The record `analyze_youtube_video` returns, step by step. */
  function Analyze(req: Request, tools: Tools): AnalysisResult
  {
    var r0 := InitialResult(req.videoId);
    var video := if req.transcribeOnly then Success(ExpectedVideoFile(req.videoId, req.outputPath))
                 else tools.download(req.videoId, req.outputPath, req.resolution);
    match video
    case Failure(e) => Failed(r0, e)
    case Success(videoFile) =>
      var r1 := r0.(videoFile := Some(videoFile));
      if req.downloadOnly then r1.(success := true)
      else
        match tools.extractAudio(videoFile)
        case Failure(e) => Failed(r1, e)
        case Success(audioFile) =>
          var r2 := r1.(audioFile := Some(audioFile));
          match tools.transcribe(req.usePersonaTranscription, audioFile, req.modelSize, req.videoId)
          case Failure(e) => Failed(r2, e)
          case Success(transcriptionFile) =>
            match tools.transcriptionInfo(req.usePersonaTranscription, audioFile)
            case Failure(e) => Failed(r2, e)
            case Success(info) =>
              var r4 := r2.(transcriptionFile := Some(transcriptionFile), language := Some(info.language),
                            languageProbability := Some(info.languageProbability));
              var r5 := if req.enableAnalysis then r4.(analysisFile := Produced(tools.analyze(transcriptionFile, req.videoId))) else r4;
              var r6 := if req.enableLinkedinPost then r5.(linkedinPostFile := Produced(tools.linkedinPost(transcriptionFile, req.videoId))) else r5;
              r6.(success := true)
  }

  /** The record reports success exactly when it carries no error, and an
      error always names the video. */
  lemma SuccessIffNoError(req: Request, tools: Tools)
    ensures Analyze(req, tools).success <==> Analyze(req, tools).error.None?
    ensures Analyze(req, tools).error.Some? ==>
      StartsWith(Analyze(req, tools).error.value, "Analysis failed for video " + req.videoId + ": ")
    ensures Analyze(req, tools).videoId == req.videoId
  {
    var r := Analyze(req, tools);
    if r.error.Some? {
      var p := "Analysis failed for video " + req.videoId + ": ";
      assert r.error.value[..|p|] == p;
    }
  }

  /** `download_only` stops after the video: no audio, transcription,
      analysis or post. */
  lemma DownloadOnlySkipsStages(req: Request, tools: Tools)
    requires req.downloadOnly
    ensures var r := Analyze(req, tools);
      r.audioFile.None? && r.transcriptionFile.None? && r.analysisFile.None?
      && r.linkedinPostFile.None? && r.language.None?
    ensures Analyze(req, tools).success <==>
      req.transcribeOnly || tools.download(req.videoId, req.outputPath, req.resolution).Success?
  {
  }

  /** `transcribe_only` never downloads and works on the expected file name. */
  lemma TranscribeOnlyUsesExpectedFile(req: Request, tools: Tools)
    requires req.transcribeOnly
    ensures Analyze(req, tools).videoFile == Some(ExpectedVideoFile(req.videoId, req.outputPath))
  {
  }

  /** Once the transcription is done, the run succeeds whatever the analysis
      and the post produce; each optional product is present exactly when it
      was asked for and its generation did not raise, independently of the
      other. */
  lemma OptionalProductsTolerated(req: Request, tools: Tools, videoFile: string, audioFile: string,
                                  transcriptionFile: string, info: TranscriptionInfo)
    requires !req.downloadOnly
    requires (if req.transcribeOnly then Success(ExpectedVideoFile(req.videoId, req.outputPath))
              else tools.download(req.videoId, req.outputPath, req.resolution)) == Success(videoFile)
    requires tools.extractAudio(videoFile) == Success(audioFile)
    requires tools.transcribe(req.usePersonaTranscription, audioFile, req.modelSize, req.videoId) == Success(transcriptionFile)
    requires tools.transcriptionInfo(req.usePersonaTranscription, audioFile) == Success(info)
    ensures var r := Analyze(req, tools);
      r.success && r.error.None?
      && r.transcriptionFile == Some(transcriptionFile) && r.language == Some(info.language)
      && (r.analysisFile.Some? <==> req.enableAnalysis && tools.analyze(transcriptionFile, req.videoId).Success?)
      && (r.linkedinPostFile.Some? <==> req.enableLinkedinPost && tools.linkedinPost(transcriptionFile, req.videoId).Success?)
  {
  }

  /** The transcription file enters the record together with the language,
      once both transcription calls have returned: a failing info call leaves
      the record with the audio file but no transcription file. */
  lemma TranscriptionRecordedWithLanguage(req: Request, tools: Tools)
    ensures var r := Analyze(req, tools);
      r.transcriptionFile.Some? ==> r.language.Some? && r.languageProbability.Some?
  {
  }

  /** The failure of `get_transcription_info` after a successful
      transcription: the error names its cause, and no transcription file
      is recorded. */
  lemma InfoFailureRecordsNoTranscription(req: Request, tools: Tools, videoFile: string, audioFile: string)
    requires !req.downloadOnly
    requires (if req.transcribeOnly then Success(ExpectedVideoFile(req.videoId, req.outputPath))
              else tools.download(req.videoId, req.outputPath, req.resolution)) == Success(videoFile)
    requires tools.extractAudio(videoFile) == Success(audioFile)
    requires tools.transcribe(req.usePersonaTranscription, audioFile, req.modelSize, req.videoId).Success?
    requires tools.transcriptionInfo(req.usePersonaTranscription, audioFile).Failure?
    ensures var r := Analyze(req, tools);
      !r.success && r.audioFile == Some(audioFile) && r.transcriptionFile.None? && r.language.None?
      && r.error == Some(FailureMessage(req.videoId, tools.transcriptionInfo(req.usePersonaTranscription, audioFile).error))
  {
  }

  /** A successful full run has every file of the chain up to the transcription. */
  lemma SuccessHasChain(req: Request, tools: Tools)
    requires Analyze(req, tools).success && !req.downloadOnly
    ensures var r := Analyze(req, tools);
      r.videoFile.Some? && r.audioFile.Some? && r.transcriptionFile.Some? && r.language.Some?
  {
  }

  /** The folder `_upload_video_to_minio` uploads into. */
  function UploadFolder(outputPath: string): (folder: string)
    ensures ObjectStore.PlainFolder(folder)
    ensures outputPath == "" || outputPath == "." ==> folder == "downloads"
  {
    if outputPath == "." || outputPath == "" then "downloads"
    else
      var stripped := StripChar(outputPath, '/');
      StripCharCuts(outputPath, '/');
      if stripped == "" then "downloads" else stripped
  }

  /** The object name of the uploaded video is the folder, '/', and the id
      with ".mp4"; for the default output path it is `downloads/{id}.mp4`,
      the path the bucket pipeline processes. */
  lemma UploadedVideoName(outputPath: string, videoId: string)
    ensures ObjectStore.ObjectName(UploadFolder(outputPath), videoId + ".mp4")
         == UploadFolder(outputPath) + "/" + videoId + ".mp4"
    ensures outputPath == "." ==>
      ObjectStore.ObjectName(UploadFolder(outputPath), videoId + ".mp4") == "downloads/" + videoId + ".mp4"
  {
    ObjectStore.StripCharOfPlain(UploadFolder(outputPath));
  }

  class YoutubeAnalyzer {
    const minio: Option<ObjectStore.MinioService>
    const tools: Tools

    constructor (minio: Option<ObjectStore.MinioService>, tools: Tools)
      ensures this.minio == minio && this.tools == tools
    {
      this.minio := minio;
      this.tools := tools;
    }

    /** `_upload_video_to_minio`: `local` holds the files on disk. */
    method UploadVideoToMinio(store: ObjectStore.MinioService, local: map<string, ObjectStore.Bytes>,
                              videoFile: string, videoId: string, outputPath: string)
      returns (ok: bool)
      modifies store`objects, store`accessed
      ensures var key := ObjectStore.ObjectName(UploadFolder(outputPath), videoId + ".mp4");
        ok == (videoFile in local && key !in store.unreachable)
        && store.objects == if ok then old(store.objects)[key := ObjectStore.StoredObject(
             local[videoFile], ObjectStore.DefaultContentType, UploadMetadata(videoId, videoFile))]
           else old(store.objects)
    {
      ok := store.SaveFile(local, videoFile, UploadFolder(outputPath), Some(videoId + ".mp4"),
                           UploadMetadata(videoId, videoFile));
    }

    /** `analyze_youtube_video`: `local` holds the files on disk once the
        download has run. With a store, a downloaded video is uploaded
        before the audio is extracted; the upload's outcome does not enter
        the record. */
    method AnalyzeYoutubeVideo(req: Request, local: map<string, ObjectStore.Bytes>)
      returns (result: AnalysisResult)
      modifies if minio.Some? then {minio.value} else {}
      ensures result == Analyze(req, tools)
      ensures result.transcriptionFile.Some? ==> result.language.Some? && result.languageProbability.Some?
      ensures minio.None? || req.transcribeOnly
              || tools.download(req.videoId, req.outputPath, req.resolution).Failure? ==>
              minio.None? || minio.value.objects == old(minio.value.objects)
      ensures minio.Some? && !req.transcribeOnly && tools.download(req.videoId, req.outputPath, req.resolution).Success? ==>
              var videoFile := tools.download(req.videoId, req.outputPath, req.resolution).value;
              var key := ObjectStore.ObjectName(UploadFolder(req.outputPath), req.videoId + ".mp4");
              minio.value.objects ==
                if videoFile in local && key !in minio.value.unreachable
                then old(minio.value.objects)[key := ObjectStore.StoredObject(
                       local[videoFile], ObjectStore.DefaultContentType, UploadMetadata(req.videoId, videoFile))]
                else old(minio.value.objects)
    {
      result := InitialResult(req.videoId);
      var videoFile;
      if !req.transcribeOnly {
        var downloaded := tools.download(req.videoId, req.outputPath, req.resolution);
        if downloaded.Failure? {
          return Failed(result, downloaded.error);
        }
        videoFile := downloaded.value;
        result := result.(videoFile := Some(videoFile));
        if minio.Some? {
          var _ := UploadVideoToMinio(minio.value, local, videoFile, req.videoId, req.outputPath);
        }
      } else {
        videoFile := ExpectedVideoFile(req.videoId, req.outputPath);
        result := result.(videoFile := Some(videoFile));
      }
      if !req.downloadOnly {
        var audio := tools.extractAudio(videoFile);
        if audio.Failure? {
          return Failed(result, audio.error);
        }
        result := result.(audioFile := Some(audio.value));
        var transcription := tools.transcribe(req.usePersonaTranscription, audio.value, req.modelSize, req.videoId);
        if transcription.Failure? {
          return Failed(result, transcription.error);
        }
        var info := tools.transcriptionInfo(req.usePersonaTranscription, audio.value);
        if info.Failure? {
          return Failed(result, info.error);
        }
        result := result.(transcriptionFile := Some(transcription.value), language := Some(info.value.language),
                          languageProbability := Some(info.value.languageProbability));
        if req.enableAnalysis {
          var analysis := tools.analyze(transcription.value, req.videoId);
          result := result.(analysisFile := if analysis.Success? then Some(analysis.value) else None);
        }
        if req.enableLinkedinPost {
          var post := tools.linkedinPost(transcription.value, req.videoId);
          result := result.(linkedinPostFile := if post.Success? then Some(post.value) else None);
        }
      }
      result := result.(success := true);
    }
  }

  /** The metadata the upload attaches. */
  function UploadMetadata(videoId: string, videoFile: string): map<string, string>
  {
    map["video_id" := videoId, "source" := "youtube",
        "original_filename" := Paths.Basename(videoFile), "content_type" := "video/mp4"]
  }
}
