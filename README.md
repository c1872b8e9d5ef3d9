# youtube-analyser, modelled in Dafny

youtube-analyser turns YouTube videos kept in a MinIO bucket into derived
content. For a video `folder/name.mp4`, the resumable pipeline of `main.py`
does the following:

- It first probes which derived files already exist.
- It downloads the video and produces only what is missing, each product
  uploaded back next to the video:
  - the 16 kHz wav,
  - the Whisper transcript,
  - the YouTube thumbnail,
  - the Ollama analysis,
  - the LinkedIn post.
- A playlist driver runs this pipeline over a playlist's entries, oldest first.

Around this pipeline sit several services:

- the MinIO service, which names, stores, lists and deletes objects;
- the transcription services: plain Whisper, and WhisperX with speaker
  diarization;
- the Ollama analysis service, which writes the analysis and LinkedIn files
  and runs a generate/validate loop for Bluesky posts;
- the Bluesky service: grapheme truncation, rich-text facets, YouTube card
  data and the posting flow;
- the configuration service, with defaults and environment overrides;
- the yt-dlp download service;
- the one-call analyzer;
- the command-line front ends for channels and playlists;
- two scripts whose pure parts are modelled: the diarization script and the
  embedding script.

The model is split into one module per source file. There are also four
support modules:

- `Wrappers`: `Option` and `Result`.
- `Text`: Python string operations over `seq<char>`: `strip`, `split`,
  `lower` and `upper` (ASCII letters only), `count`, `int()`, `str()` and
  UTF-8 length.
- `Paths`: `pathlib` and `os.path` on POSIX paths.
- `Counting`: Python's `list.count`, shared by the speaker statistics and
  the test-type distribution.

Modelling choices:

- **State.** State the source changes in place is modelled as classes:
  - the bucket: `ObjectStore.MinioService`;
  - the configuration: `Config.ConfigService`;
  - the authentication flag: `Bluesky.BlueskyService`;
  - the alignment-model cache:
    `Transcription.PersonaTranscriptionService`.
- **Loops.** Loops are methods, each proved against a specification
  function. Examples:
  - the existence probe;
  - the stage sequence;
  - the facet builder;
  - the truncation loop;
  - the validation-reply parser;
  - the five-attempt Bluesky loop;
  - the transcript layout writer;
  - the speaker statistics;
  - the metadata-filter builder.
- **External work.** Everything outside the program is a parameter: an
  oracle function whose `Failure` or `None` stands for the exception that
  the real call raises. This covers ffmpeg, Whisper, WhisperX and pyannote,
  Ollama, HTTP, yt-dlp, atproto and the local file system.
- **Numbers.** Integers are unbounded. No source operation depends on a
  machine width. Floats are kept as opaque rendered strings, or not kept
  at all.

Two deviations of the code from its documented intent are modelled as
written:

- `save_data_with_date` stores under a different object than
  `retrieve_data_with_date` reads. See "## Findings".
- With an empty folder, the text stages of the pipeline save `name`, while
  the existence probe asks for `/name`. The lemmas
  `Pipeline.TextObjectNameOfEmpty` and
  `Pipeline.EmptyFolderTranscriptStaysPending` state the consequence: a
  bare-name video never sees its transcript as present.

## Model

| member | source | states |
|---|---|---|
| ObjectStore.ObjectName | youtube-analyser/services/minio_service.py:141 | the object a folder and file name address is the '/'-stripped folder, '/', and the name; it always ends with "/" + name |
| ObjectStore.ObjectNameInjective | youtube-analyser/services/minio_service.py:141 | within one folder, different file names address different objects |
| ObjectStore.ObjectNameUnderListPrefix | youtube-analyser/services/minio_service.py:298 | every object addressed in a folder lies under that folder's listing prefix |
| ObjectStore.ListingEntry | youtube-analyser/services/minio_service.py:299-305 | a listed name starts with the prefix and is no longer than the key; non-recursive listings cut deeper keys at the next '/' |
| ObjectStore.MinioService.constructor | youtube-analyser/services/minio_service.py:14-51 | the service starts on the given bucket contents and failing names, with no request made |
| ObjectStore.MinioService.Save | youtube-analyser/services/minio_service.py:64-108 | `save` stores the data under the name exactly as given, with its content type and metadata, and reports success iff the request is not refused; otherwise the bucket is unchanged |
| ObjectStore.MinioService.SaveFile | youtube-analyser/services/minio_service.py:110-159 | `save_file` uploads the local file under folder/name, the name defaulting to the file's basename; a missing local file makes no request and returns false |
| ObjectStore.MinioService.Retrieve | youtube-analyser/services/minio_service.py:161-191 | `retrieve` returns the bytes of folder/name iff that object is stored and reachable, else None; the bucket is unchanged |
| ObjectStore.MinioService.RetrieveToFile | youtube-analyser/services/minio_service.py:193-229 | `retrieve_to_file` writes the object's bytes to the local path iff it can be read, and reports that |
| ObjectStore.MinioService.ObjectExists | youtube-analyser/services/minio_service.py:343-367 | `object_exists` is true exactly when the object is stored and its probe succeeds |
| ObjectStore.MinioService.GetObjectInfo | youtube-analyser/services/minio_service.py:369-403 | `get_object_info` returns name, size, content type and metadata of a reachable object, else None |
| ObjectStore.MinioService.DeleteObject | youtube-analyser/services/minio_service.py:313-341 | `delete_object` removes the object (deleting an absent one succeeds too) unless the request is refused |
| ObjectStore.MinioService.Listed | youtube-analyser/services/minio_service.py:298-305 | every listed name starts with the folder's listing prefix |
| ObjectStore.MinioService.ListObjects | youtube-analyser/services/minio_service.py:279-311 | `list_objects` returns each listed name exactly once, all of them and nothing else, or an empty list when the listing fails |
| ObjectStore.MinioService.SaveDataWithDateAsWritten | youtube-analyser/services/minio_service.py:231-255 | as written, the dated save stores under `{category}/{date}` itself, with the file name as content type |
| ObjectStore.DateKeysDisagree | youtube-analyser/services/minio_service.py:254-277 | for a category without '/' at its ends, the key the dated save writes never equals the key the dated read reads |
| ObjectStore.DateKeysDisagreeExample | youtube-analyser/services/minio_service.py:231-277 | the docstring's own example (stocks, 2024-01-15, AAPL_1min.csv) is saved and read under different keys |
| ObjectStore.ReadDateKeyShape | youtube-analyser/services/minio_service.py:244-277 | for a category without a '/' at either end and a non-empty date not ending in '/', the dated read's object is the date-organised name `{category}/{date}/{filename}` |
| ObjectStore.MinioService.SaveDataWithDate | youtube-analyser/services/minio_service.py:231-255 | the corrected dated save stores the data at `{category}/{date}/{filename}` |
| ObjectStore.MinioService.RetrieveDataWithDate | youtube-analyser/services/minio_service.py:257-277 | the dated read returns the bytes of `{category}/{date}/{filename}` when reachable, else None |
| ObjectStore.MinioService.DatedRoundTripAsWritten | youtube-analyser/services/minio_service.py:231-277 | as written, a dated save followed by the dated read of the same triple reads nothing when the object was absent before |
| ObjectStore.MinioService.DatedRoundTrip | youtube-analyser/services/minio_service.py:231-277 | with the corrected save, the dated read returns exactly what a successful dated save wrote |
| Pipeline.ProbeEntries | youtube-analyser/main.py:91-115 | the existence snapshot reports exactly the probed artifacts, each as whether its object answers |
| Pipeline.ProbeNamesOfVariants | youtube-analyser/main.py:93-106 | `main.py` probes wav, txt, analysis, linkedin, bluesky, json, webp and -sm.mp4 objects in that order; `test_minio.py` probes the first four |
| Pipeline.ProbeNamesDistinct | youtube-analyser/main.py:93-102 | the eight probed object names are pairwise different |
| Pipeline.PendingMembers | youtube-analyser/main.py:624-627 | a stage is pending exactly when the snapshot reports its artifact missing |
| Pipeline.PendingOrdered | youtube-analyser/main.py:662-781 | pending stages run in the order wav, txt, thumbnail, analysis, linkedin |
| Pipeline.PendingEmpty | youtube-analyser/main.py:614-622 | no stage is pending exactly when none of the five producing stages is reported missing |
| Pipeline.ForcedPending | youtube-analyser/main.py:629-640 | in force mode every stage of the variant is pending |
| Pipeline.Base | youtube-analyser/main.py:603 | `name[:-4]` followed by the last four characters gives the name back |
| Pipeline.TextObjectNameOfPlain | youtube-analyser/main.py:201 | for a folder without '/' at its ends the text stages save under the name the probe asks for |
| Pipeline.TextObjectNameOfEmpty | youtube-analyser/main.py:201 | with the empty folder the text stages save `name` while the probe asks for `/name` |
| Pipeline.StageObjectOfPlain | youtube-analyser/main.py:148-153 | for a plain folder every stage writes the object its probe reads |
| Pipeline.WrittenKeys | youtube-analyser/main.py:662-781 | one written object name per upload |
| Pipeline.ApplyFrame | youtube-analyser/main.py:662-781 | uploads leave every other object as it was and make their own objects present |
| Pipeline.WrittenAnswers | youtube-analyser/main.py:662-781 | after a run, the object of every executed stage answers |
| Pipeline.AnswersKept | youtube-analyser/main.py:662-781 | uploads never remove an object: one that answered before still answers |
| Pipeline.WroteFrame | youtube-analyser/main.py:662-781 | an object no executed stage writes is unchanged |
| Pipeline.NoWritesUnchanged | youtube-analyser/main.py:614-622 | a run that executes no stage makes no upload and leaves the bucket unchanged |
| Pipeline.ProgressAdvance | youtube-analyser/main.py:663-667 | a missing stage that ran and uploaded its object advances the run by one stage |
| Pipeline.ProgressFail | youtube-analyser/main.py:820-822 | a failure keeps the stages executed so far, whichever stage it stops at |
| Pipeline.StageFoundAfter | youtube-analyser/main.py:593-823 | after every pending stage was executed, a new probe reports each producing stage present |
| Pipeline.NothingPendingAfter | youtube-analyser/main.py:593-823 | after every pending stage was executed, a new probe finds nothing pending |
| Pipeline.DownloadsAnswerAfter | youtube-analyser/main.py:671-715 | a probe that reports the wav and the transcript present makes their downloads succeed |
| Pipeline.Produce | youtube-analyser/main.py:117-523 | a missing stage that fails changes no object and records nothing; one that succeeds records itself as executed and leaves its object present; requests are only appended |
| Pipeline.Fetch | youtube-analyser/main.py:671-715 | downloading an existing wav or transcript changes no object; the run goes on iff the download was not needed or its object answers |
| Pipeline.Step | youtube-analyser/main.py:662-781 | a stage that stops the run changes no object and records nothing; requests are only appended |
| Pipeline.RunThroughStopped | youtube-analyser/main.py:662-781 | the first failure ends the run: the later stages change nothing |
| Pipeline.StepProgress | youtube-analyser/main.py:662-781 | one stage of a run that is still going advances its record by one stage: executed if missing, skipped otherwise, and the run stops when that stage fails |
| Pipeline.NextProgress | youtube-analyser/main.py:662-822 | one more stage advances the record of a run, and a run that has stopped stays stopped with its record unchanged |
| Pipeline.RunThroughProgress | youtube-analyser/main.py:662-781 | through the first n stages, a run executes the pending stages in order up to the first failure, and all of them when it succeeds; each executed stage writes its own object, and nothing else is written |
| Pipeline.QuietRunThrough | youtube-analyser/main.py:662-781 | stages that all exist leave the bucket untouched; the run goes on exactly while the needed wav and transcript downloads succeed |
| Pipeline.StepSucceeds | youtube-analyser/main.py:662-781 | in a run where no tool, upload or needed download can fail, each stage keeps the run going, keeps every upload on its stage's object (never the `.json`), and leaves locally the wav and transcript the later stages read |
| Pipeline.StageFetched | youtube-analyser/main.py:671-715 | an existing stage in a run where nothing can fail is skipped, or its wav or transcript is downloaded when a later product needs it, and the run goes on |
| Pipeline.StageProduced | youtube-analyser/main.py:662-781 | a missing stage in a run where nothing can fail is made by its tool and uploaded to its object, and the run goes on |
| Pipeline.ProduceSucceeds | youtube-analyser/main.py:117-523 | a stage whose tool gives a result and whose object accepts the upload succeeds, uploads exactly that result with the stage's metadata and keeps it locally |
| Pipeline.ToolOutputSome | youtube-analyser/main.py:117-337 | the wav, transcript, analysis and post tools get their input from the temporary directory, so a tool that always answers gives a result |
| Pipeline.ThumbnailOutputSome | youtube-analyser/main.py:442-523 | a thumbnail that could be fetched before the run can still be fetched at its stage |
| Pipeline.RunThroughSucceeds | youtube-analyser/main.py:662-781 | in a run where nothing can fail, the run goes on through the first n stages with the mp4, the needed wav and the needed transcript in the temporary directory |
| Pipeline.ThumbnailInputKept | youtube-analyser/main.py:442-523 | no stage writes the `.json` object, so the thumbnail stage fetches from the metadata the bucket held before the run |
| Pipeline.VideoRunSucceeds | youtube-analyser/main.py:603-822 | when the mp4 answers, every tool gives a result, a missing thumbnail can be fetched and every pending stage's object accepts its upload, the run succeeds and executes exactly the pending stages |
| Pipeline.VideoRunShape | youtube-analyser/main.py:603-822 | a probe that finds everything gives success with the bucket untouched; an mp4 that does not answer gives failure with the bucket untouched; with nothing pending the bucket is untouched and the run succeeds iff the mp4 and the needed downloads answer; in every case the pending stages run in order until the first failure, each writing its object |
| Pipeline.VideoRequestsShape | youtube-analyser/main.py:614-657 | without force the probes are the first requests, and nothing follows them when they find everything; with force the first request is the mp4's existence check; requests are only appended |
| Pipeline.RerunAfterSuccess | youtube-analyser/main.py:593-823 | after a successful run, a second run without force on a plain folder succeeds, executes nothing and writes nothing |
| Pipeline.MissingAfter | youtube-analyser/main.py:91-115 | after a run that executed the pending stages of the first m stages, a new probe reports a stage missing iff the old probe did and the stage comes at position m or later |
| Pipeline.ReachedStageFound | youtube-analyser/main.py:662-781 | a probed stage among the first m answers after the run, whether it was there before or written by the run |
| Pipeline.UnreachedStageKept | youtube-analyser/main.py:662-781 | a stage at position m or later answers after the run iff it answered before |
| Pipeline.PendingThroughResume | youtube-analyser/main.py:614-627 | a snapshot with nothing missing before position m, agreeing with the old one from m on, has as pending stages the old pending stages minus those among the first m |
| Pipeline.ResumeAfterRun | youtube-analyser/main.py:593-823 | resumability, failed runs included: after a run without force on a plain folder, a new probe finds pending exactly the old pending stages after the ones this run executed, so the next run starts where this one stopped |
| Pipeline.EmptyFolderKeyDiffers | youtube-analyser/main.py:201 | with the empty folder no stage writes the object the transcript probe asks for |
| Pipeline.EmptyFolderTranscriptStaysPending | youtube-analyser/main.py:91-115 | with the empty folder the transcript is reported missing after any run |
| Pipeline.ParseDownloadsPath | youtube-analyser/main.py:825-835 | the playlist path `downloads/{id}.mp4` parses to folder "downloads" and name `{id}.mp4` |
| Pipeline.ParseBareName | youtube-analyser/main.py:828-831 | a bare file name parses to the empty folder |
| Pipeline.VideoProcessor.constructor | youtube-analyser/main.py:75-89 | the processor works on the given bucket and tools |
| Pipeline.VideoProcessor.CheckFilesExist | youtube-analyser/main.py:91-115 | `check_files_exist` returns the snapshot of the variant's artifacts, one `object_exists` request per artifact in dictionary order |
| Pipeline.VideoProcessor.ConvertAudio | youtube-analyser/main.py:117-162 | `convert_audio` extracts the wav from the local mp4 and keeps it locally; it then uploads the wav as folder/{base}.wav with its five metadata entries. It succeeds iff the extraction and the upload both succeed. There is one upload request, and none when the extraction fails |
| Pipeline.VideoProcessor.SaveTextProduct | youtube-analyser/main.py:185-216 | a text product made by its tool from the local input is saved as folder/name with content type text/plain and the given metadata; nothing is saved or requested when the tool fails |
| Pipeline.VideoProcessor.TranscribeAudio | youtube-analyser/main.py:164-216 | `transcribe_audio` transcribes the local wav, keeps the transcript locally and uploads it with its metadata; success iff both, one request iff transcribed |
| Pipeline.VideoProcessor.GenerateAnalysis | youtube-analyser/main.py:218-275 | `generate_analysis` analyses the local transcript and uploads the result with its metadata; success iff both, one request iff analysed |
| Pipeline.VideoProcessor.GenerateLinkedinPost | youtube-analyser/main.py:277-337 | `generate_linkedin_post` writes the post from the local transcript and uploads it with its metadata; success iff both, one request iff written |
| Pipeline.VideoProcessor.DownloadAndUploadThumbnail | youtube-analyser/main.py:442-523 | probes the .json and reads it when present. When it decodes, it uploads as .webp, with the thumbnail metadata, exactly the bytes fetched for the chosen thumbnail. The uploaded bytes are also kept locally. It fails with the bucket unchanged when the .json is absent, empty or undecodable, when the fetch fails, or when the upload is refused. It makes exactly the probe, the read and the upload requests |
| Pipeline.VideoProcessor.LogInfo | youtube-analyser/test_minio.py:313-316 | in the four-stage copy, one object-info request for the uploaded name; none in `main.py`; no object changes |
| Pipeline.VideoProcessor.FetchIfNeeded | youtube-analyser/main.py:671-683 | an existing input is downloaded into the temporary directory only when needed; the download succeeds iff its object answers, and one request is made iff needed |
| Pipeline.VideoProcessor.WavStep | youtube-analyser/main.py:662-683 | the wav stage is the run's step 0. A missing wav is extracted, uploaded and, in the four-stage copy, followed by an info request. An existing wav is downloaded iff a later product reads it, and the stage fails iff that download fails |
| Pipeline.VideoProcessor.TxtStep | youtube-analyser/main.py:685-715 | the transcript stage is the run's step 1. A missing transcript is made and uploaded. An existing one is downloaded iff a product made from it is missing |
| Pipeline.VideoProcessor.ThumbnailStep | youtube-analyser/main.py:717-727 | the thumbnail stage is the run's step 2: `download_and_upload_thumbnail` runs iff the thumbnail is missing, and the stage otherwise succeeds with no request |
| Pipeline.VideoProcessor.AnalysisStep | youtube-analyser/main.py:753-765 | the analysis stage is the run's step 3: the analysis is made and uploaded iff it is missing |
| Pipeline.VideoProcessor.LinkedinStep | youtube-analyser/main.py:767-781 | the LinkedIn stage is the run's step 4: the post is made and uploaded iff it is missing |
| Pipeline.VideoProcessor.AudioSteps | youtube-analyser/main.py:662-715 | the wav and transcript stages leave the bucket, temporary directory and request log of the run's first two steps |
| Pipeline.VideoProcessor.ProductSteps | youtube-analyser/main.py:717-781 | the thumbnail, analysis and LinkedIn stages complete the run through all five steps, stopping at the first failure |
| Pipeline.VideoProcessor.StagesFrom | youtube-analyser/main.py:665-822 | once the mp4 is local, the bucket, the result and the request log are those of the five steps |
| Pipeline.VideoProcessor.RunStages | youtube-analyser/main.py:650-822 | after the mp4 was found, the run downloads it and then runs the five steps |
| Pipeline.VideoProcessor.RunVideo | youtube-analyser/main.py:603-822 | the result, the bucket, the executed stages, the uploads and the whole request log are exactly those of the specified run. It probes unless forced and succeeds when nothing is missing. It checks the mp4, listing the folder in the four-stage copy when the mp4 is absent, then downloads it and runs the stages |
| Pipeline.VideoProcessor.RunPipeline | youtube-analyser/main.py:593-823 | a name not ending in ".mp4" (any case) fails without a request; otherwise the run on the parsed folder and name |
| Pipeline.VideoProcessor.ProcessVideo | youtube-analyser/main.py:593-823 | `process_video` has the outcome and requests of the eight-probe variant |
| Pipeline.VideoProcessor.ConvertMp4ToWavAndTranscribe | youtube-analyser/test_minio.py:158-616 | the older four-stage copy has the outcome and requests of its variant |
| Playlist.Reversed | youtube-analyser/main.py:879 | the reversed list has the same length with element i at position n-1-i |
| Playlist.CountTrue | youtube-analyser/main.py:905-906 | the success count is at most the number of entries, and equals it iff every entry succeeded |
| Playlist.Unidentified | youtube-analyser/main.py:889-893 | entries without an id plus processed entries make up the whole list |
| Playlist.PlaylistProcessor.constructor | youtube-analyser/main.py:841-843 | the driver uses the given video processor |
| Playlist.ChainSnoc | youtube-analyser/main.py:887-919 | a chain of entry steps extended by one more step is a chain over one more entry |
| Playlist.ChainAt | youtube-analyser/main.py:887-919 | in a chain, entry i is one step from state i to state i+1 with outcome i |
| Playlist.PlaylistProcessor.RunEntry | youtube-analyser/main.py:902-904 | the entry's run has the Outcome of `process_video` on its bucket path, between the bucket before and after it |
| Playlist.PlaylistProcessor.TakeEntry | youtube-analyser/main.py:888-919 | an entry without an id fails and leaves the bucket alone; any other is one `process_video` run on `downloads/{id}.mp4` with that run's Outcome |
| Playlist.PlaylistProcessor.TakeEntries | youtube-analyser/main.py:885-919 | the loop takes every entry in order, each on the bucket the previous one left, and counts the successes and failures |
| Playlist.PlaylistProcessor.ProcessPlaylist | youtube-analyser/main.py:869-925 | `process_playlist` takes the entries (titles a string or missing) in reverse order; each without an id is an error and does not touch the bucket; each other entry i is a `process_video` run on `downloads/{id}.mp4` with its Outcome between bucket states i and i+1, the first being the bucket before and the last the bucket after; the counts add up; the result is true iff no error |
| Analysis.ManualIssues | youtube-analyser/services/analysis_service.py:264-271 | the manual validator lists an issue for a post over 290 characters and one for fewer than two '#', in that order, and none iff the post meets both limits |
| Analysis.ManualValidatePost | youtube-analyser/services/analysis_service.py:237-273 | manual validation passes exactly the posts of at most 290 characters with at least two '#', with feedback "APPROVED", and otherwise lists the issues after its failure prefix |
| Analysis.KeptLines | youtube-analyser/services/analysis_service.py:173 | every kept line is stripped and not empty, no more lines than pieces, and a string is kept iff it is non-empty and the stripped form of some piece |
| Analysis.KeptLinesAppend | youtube-analyser/services/analysis_service.py:173 | the comprehension keeps order: the kept lines of two concatenated parts are those of the first followed by those of the second |
| Analysis.ReplyVerdict | youtube-analyser/services/analysis_service.py:164-235 | a missing, failed or too-short reply, or one without both counts, falls back to manual validation; otherwise the parsed verdict and guidance |
| Analysis.ParseValidationLines | youtube-analyser/services/analysis_service.py:173-203 | the line loop collects exactly what the line-by-line parse of the reply collects |
| Analysis.ValidateBlueskyPost | youtube-analyser/services/analysis_service.py:141-235 | `_validate_bluesky_post` returns the verdict of the reply |
| Analysis.LastMeetsLineDecides | youtube-analyser/services/analysis_service.py:179-182 | the last MEETS_REQUIREMENTS line decides the verdict |
| Analysis.NoMeetsLineRejects | youtube-analyser/services/analysis_service.py:174-182 | without a MEETS_REQUIREMENTS line the parsed verdict is a rejection |
| Analysis.LastReadableCharCount | youtube-analyser/services/analysis_service.py:188-195 | the character count is the value of the last CHARACTER_COUNT line `int()` can read |
| Analysis.NoReadableCharCount | youtube-analyser/services/analysis_service.py:205-208 | without a readable CHARACTER_COUNT line the count is missing, so manual validation decides |
| Analysis.UnreadableCountIgnored | youtube-analyser/services/analysis_service.py:191-203 | a count line `int()` rejects changes nothing |
| Analysis.CreateBlueskyPrompt | youtube-analyser/services/analysis_service.py:108-127 | the prompt carries the analysis and id unchanged, and the guidance, with empty guidance replaced by the no-feedback text |
| Analysis.ForceFit | youtube-analyser/services/analysis_service.py:602-606 | the last candidate is kept when at most 290 characters, else cut to its first 287 plus "...", exactly 290 |
| Analysis.Cycle | youtube-analyser/services/analysis_service.py:559-585 | one attempt fails iff the generator fails, and otherwise is the stripped candidate with the validator's verdict on it |
| Analysis.Round | youtube-analyser/services/analysis_service.py:555-606 | one loop iteration after rejected attempts: a generator failure ends the call, an accepted candidate is returned, the fifth rejected one is force-fitted, and otherwise the run grows by a rejected attempt |
| Analysis.GenerateBlueskyPost | youtube-analyser/services/analysis_service.py:534-616 | empty analysis fails; at most five chained attempts, each after a rejected one and fed its feedback; the result is the first approved candidate, else the fifth one force-fitted; a generator error fails with the video id in the message |
| Analysis.OutputPathsBesideTranscription | youtube-analyser/services/analysis_service.py:358-367 | the analysis and LinkedIn files lie in the transcription's directory and are named `{id}-analysis.txt` and `{id}-linkedin-post.txt` |
| Analysis.ReadTranscription | youtube-analyser/services/analysis_service.py:328-338 | reading succeeds iff the file exists and is not blank, and gives its content |
| Analysis.AnalyzeTranscription | youtube-analyser/services/analysis_service.py:314-389 | `analyze_transcription` succeeds iff the transcription reads and the chat answers; the file is written beside it and is the report header (video id or "Unknown", the transcription's basename, the time, the model) followed by the answer; errors carry the "Failed to analyze transcription" prefix |
| Analysis.GenerateLinkedinPost | youtube-analyser/services/analysis_service.py:457-532 | `generate_linkedin_post` succeeds iff the transcription reads and the chat answers; the post is written beside it and is the LinkedIn header (video id or "Unknown", the basename, the model) followed by the answer; errors carry the "Failed to generate LinkedIn post" prefix |
| Bluesky.Truncated | youtube-analyser/services/bluesky_service.py:83-102 | the truncated text fits the limit; it is the text itself iff that fits; otherwise it is a prefix followed by "..." |
| Bluesky.TruncatedIdempotent | youtube-analyser/services/bluesky_service.py:83-102 | truncating a truncated text changes nothing |
| Bluesky.TruncateToGraphemeLimit | youtube-analyser/services/bluesky_service.py:83-102 | the two dropping loops compute the truncation |
| Bluesky.LinkFacet | youtube-analyser/services/bluesky_service.py:126-139 | a URL facet spans the UTF-8 byte offsets of the match and links its text |
| Bluesky.TagFacet | youtube-analyser/services/bluesky_service.py:142-164 | a hashtag facet spans the hashtag's UTF-8 bytes, and its tag is the hashtag without its '#' |
| Bluesky.AsciiFacetOffsets | youtube-analyser/services/bluesky_service.py:131-133 | on ASCII text byte offsets are character positions |
| Bluesky.CreateFacets | youtube-analyser/services/bluesky_service.py:104-166 | one facet per URL match then one per hashtag match, in match order, every range within the text's bytes |
| Bluesky.IdRun | youtube-analyser/services/bluesky_service.py:368-369 | the greedy `[a-zA-Z0-9_-]+` run starting at a position |
| Bluesky.SearchId | youtube-analyser/services/bluesky_service.py:373-376 | `re.search` reports the capture at the leftmost matching position (no position before it from the start matches), a non-empty run of id characters, and nothing iff no position matches |
| Bluesky.ExtractVideoId | youtube-analyser/services/bluesky_service.py:367-376 | the watch/short-link pattern is tried first and the embed pattern only when it finds nothing |
| Bluesky.ExtractYoutubeInfo | youtube-analyser/services/bluesky_service.py:358-404 | the card keeps the URL and description and has a thumbnail iff an id was found, titled with it; otherwise titled "YouTube Video" |
| Bluesky.WatchUrlRoundTrip | youtube-analyser/services/bluesky_service.py:368 | the id of a watch URL built from an id is that id |
| Bluesky.ShortUrlRoundTrip | youtube-analyser/services/bluesky_service.py:368 | the short-link form gives the same id |
| Bluesky.SearchIdSkips | youtube-analyser/services/bluesky_service.py:373 | positions without a match do not change the search's result |
| Bluesky.AltTexts | youtube-analyser/services/bluesky_service.py:284-286 | one alt text per media item: the given one, or "" when missing or None |
| Bluesky.BlueskyService.constructor | youtube-analyser/services/bluesky_service.py:21-36 | the service starts unauthenticated |
| Bluesky.BlueskyService.Authenticate | youtube-analyser/services/bluesky_service.py:38-56 | `authenticate` logs in once and sets the flag to its outcome |
| Bluesky.BlueskyService.EnsureAuthenticated | youtube-analyser/services/bluesky_service.py:58-62 | logs in only when not yet authenticated, and raises iff still unauthenticated |
| Bluesky.BlueskyService.UploadMedia | youtube-analyser/services/bluesky_service.py:275-299 | the media loop succeeds iff every upload succeeds, with one alt text per item |
| Bluesky.BlueskyService.Post | youtube-analyser/services/bluesky_service.py:227-327 | authentication first; then an empty post without media raises; more than four media items fail; otherwise the truncated text with its images is sent and the result is the outcome |
| Bluesky.BlueskyService.PostWithImage | youtube-analyser/services/bluesky_service.py:341-356 | one image, with its alt text only when that is not empty |
| Bluesky.BlueskyService.PostTextOnly | youtube-analyser/services/bluesky_service.py:329-339 | a text-only `post` |
| BlueskyPostBuilder.ChoosePosting | youtube-analyser/services/bluesky_post_builder.py:62-88 | YouTube card when enabled and a URL is given, else the video when its path exists, else the thumbnail with alt "Thumbnail for {title}", else text only; exactly one applies |
| BlueskyPostBuilder.FacetIgnoresMedia | youtube-analyser/services/bluesky_post_builder.py:63-68 | in the card branch the media paths play no part |
| BlueskyPostBuilder.PostBuilder.constructor | youtube-analyser/services/bluesky_post_builder.py:14-23 | the builder posts through the given service |
| BlueskyPostBuilder.PostBuilder.PostContentWithMedia | youtube-analyser/services/bluesky_post_builder.py:25-99 | a failed login returns false before any post is chosen; otherwise the chosen method's outcome is the result |
| Config.DefaultConfig | youtube-analyser/services/config_service.py:13-46 | the defaults have the five sections download, transcription, analysis, minio and logging |
| Config.EnvMappingsDistinct | youtube-analyser/services/config_service.py:50-69 | the eighteen mappings have distinct targets |
| Config.EnvMappingsPresent | youtube-analyser/services/config_service.py:50-69 | every mapped setting exists in the defaults |
| Config.Coerce | youtube-analyser/services/config_service.py:76-100 | beam_size and max_tokens go through `int()` on ASCII digits, temperature through `float()` (accepted iff it parses), the three flags `enable_analysis`, `minio.secure` and `minio.enabled` become true iff lowercased in true/1/yes/on; every other setting keeps the string; a rejected number keeps the default |
| Config.ApplyOverrides | youtube-analyser/services/config_service.py:71-103 | applying the mappings never loses a section or a key |
| Config.ApplyOverridesShape | youtube-analyser/services/config_service.py:71-103 | overrides whose targets exist keep exactly the sections and keys |
| Config.ApplyOverridesFrame | youtube-analyser/services/config_service.py:71-103 | a setting no mapping targets keeps its value |
| Config.ApplyOverridesAt | youtube-analyser/services/config_service.py:72-102 | a mapped setting holds its converted variable when that is set and accepted, else its previous value |
| Config.DefaultsOverriddenAt | youtube-analyser/services/config_service.py:9-11 | the service's setting at each mapped target is the converted variable or the default |
| Config.InvalidBeamSizeKeepsDefault | youtube-analyser/services/config_service.py:77-82 | a WHISPER_BEAM_SIZE `int()` rejects leaves beam size 5 |
| Config.EmptyEnvironmentKeepsDefaults | youtube-analyser/services/config_service.py:71-73 | with no variable set the configuration is unchanged |
| Config.LookupIn | youtube-analyser/services/config_service.py:105-123 | `get` returns the default for a missing section, the whole section for no key, and the value or the default for a key |
| Config.SetThenGet | youtube-analyser/services/config_service.py:145-158 | `set` then `get` gives the value back, and no other setting moves |
| Config.UpdateThenGet | youtube-analyser/services/config_service.py:160-172 | after `update_section`, updated keys give their new value and the others their old one |
| Config.ConfigService.constructor | youtube-analyser/services/config_service.py:9-11 | the configuration is the defaults with the environment overrides applied |
| Config.ConfigService.LoadEnvironmentOverrides | youtube-analyser/services/config_service.py:48-103 | the override loop applies every mapping in order |
| Config.ConfigService.ApplyMappings | youtube-analyser/services/config_service.py:71-103 | over any list of mappings, the loop leaves the configuration that applying the mappings one after another gives |
| Config.ConfigService.Get | youtube-analyser/services/config_service.py:105-123 | `get` on the current configuration: the default for a missing section, the whole section without a key, else the stored value or the default |
| Config.ConfigService.Set | youtube-analyser/services/config_service.py:145-158 | `set` writes one value, creating the section when missing |
| Config.ConfigService.UpdateSection | youtube-analyser/services/config_service.py:160-172 | `update_section` merges the updates into the section (created when missing) and leaves other sections alone |
| Config.ConfigService.GetAll | youtube-analyser/services/config_service.py:174-176 | `get_all` returns the whole configuration |
| Analyzer.InitialResult | youtube-analyser/services/youtube_analyzer.py:95-106 | the record starts with the id, no files, no language, no error and success false |
| Analyzer.ExpectedVideoFile | youtube-analyser/services/youtube_analyzer.py:122-126 | the expected video is `{id}.mp4`, under the output path unless that is "." |
| Analyzer.SuccessIffNoError | youtube-analyser/services/youtube_analyzer.py:108-231 | the record reports success exactly when it carries no error; an error carries the "Analysis failed for video" prefix; the id is kept |
| Analyzer.DownloadOnlySkipsStages | youtube-analyser/services/youtube_analyzer.py:128-129 | download-only stops after the video and succeeds iff that step does |
| Analyzer.TranscribeOnlyUsesExpectedFile | youtube-analyser/services/youtube_analyzer.py:121-126 | transcribe-only never downloads and works on the expected file name |
| Analyzer.OptionalProductsTolerated | youtube-analyser/services/youtube_analyzer.py:179-223 | once transcribed, the run succeeds whatever the analysis and LinkedIn steps do, recording None for a failed product |
| Analyzer.SuccessHasChain | youtube-analyser/services/youtube_analyzer.py:108-175 | a successful full run has video, audio and transcription files and a language |
| Analyzer.TranscriptionRecordedWithLanguage | youtube-analyser/services/youtube_analyzer.py:134-175 | the transcription file is recorded only together with the language and its probability, after both transcription calls returned |
| Analyzer.InfoFailureRecordsNoTranscription | youtube-analyser/services/youtube_analyzer.py:134-175 | when `get_transcription_info` raises after a successful transcription, the record keeps the audio file, has no transcription file or language, and carries the info call's error |
| Analyzer.UploadFolder | youtube-analyser/services/youtube_analyzer.py:311-317 | the upload folder is "downloads" for "" or "." or an all-'/' path, else the path without '/' at its ends |
| Analyzer.UploadedVideoName | youtube-analyser/services/youtube_analyzer.py:311-337 | the uploaded object is the folder, '/', and `{id}.mp4` |
| Analyzer.YoutubeAnalyzer.constructor | youtube-analyser/services/youtube_analyzer.py:20-64 | the analyzer uses the given store and services |
| Analyzer.YoutubeAnalyzer.UploadVideoToMinio | youtube-analyser/services/youtube_analyzer.py:291-351 | the video is uploaded as `{id}.mp4` into the upload folder with its metadata |
| Analyzer.YoutubeAnalyzer.AnalyzeYoutubeVideo | youtube-analyser/services/youtube_analyzer.py:66-231 | the returned record is the step-by-step record. With a store, a downloaded video is uploaded as `{id}.mp4` in the upload folder with its metadata when the local file exists and the name is reachable. In every other case the bucket is unchanged. A recorded transcription file always comes with its language |
| Download.FormatSelector | youtube-analyser/services/youtube_download_service.py:13-32 | "best" gives the fallback chain, the four capped resolutions a height cap before it, anything else itself before it |
| Download.CappedHeights | youtube-analyser/services/youtube_download_service.py:28 | the height caps are 720, 1080, 480 and 360 |
| Download.BestChainIsFallback | youtube-analyser/services/youtube_download_service.py:24-32 | every selector ends with the full chain, after a '/' for anything but "best" |
| Download.RequestedAlternativesFirst | youtube-analyser/services/youtube_download_service.py:32 | a free-form selector keeps all its own alternatives before the chain's |
| Download.OrDefault | youtube-analyser/services/youtube_download_service.py:57-58 | a missing or empty argument falls back to the default |
| Download.DownloadOptions | youtube-analyser/services/youtube_download_service.py:54-69 | an empty id is rejected with "Video ID cannot be empty"; otherwise the watch URL, `{out}/{id}.%(ext)s`, the selector of the resolution and mp4 merging |
| Download.DownloadVideo | youtube-analyser/services/youtube_download_service.py:34-81 | `download_video` returns yt-dlp's file or wraps its error with the id |
| Download.GetVideoInfo | youtube-analyser/services/youtube_download_service.py:83-108 | `get_video_info` rejects an empty id and otherwise returns the extracted metadata or the wrapped error |
| Download.DefaultDownload | youtube-analyser/services/youtube_download_service.py:9-11 | with no arguments the video goes to `./{id}.%(ext)s` with the "best" chain |
| Download.WatchUrlCarriesId | youtube-analyser/services/youtube_download_service.py:60 | the URL fetched gives the id back to the Bluesky extractor |
| DownloadCli.UpTo | youtube-analyser/download_channel.py:162 | `s.split(c)[0]` is the longest prefix without `c` |
| DownloadCli.UrlSubfolder | youtube-analyser/download_channel.py:157-167 | a URL with "/@" gets an "@" subfolder; one with neither "/@" nor "/channel/" gets none |
| DownloadCli.VideosUrl | youtube-analyser/download_channel.py:153-155 | a full URL is completed to end with "/videos" |
| DownloadCli.ClassifyChannel | youtube-analyser/download_channel.py:133-172 | empty is rejected; a handle becomes its channel page with itself as subfolder; a 24-character UC id becomes its channel page; a youtube.com URL is completed; anything else is rejected |
| DownloadCli.VideosUrlClassified | youtube-analyser/download_channel.py:151-167 | a URL starting with 'h', naming youtube.com and ending in "/videos" is kept as it is |
| DownloadCli.ChannelUrlFixedPoint | youtube-analyser/download_channel.py:138-167 | the URL a handle or id gives is classified again to itself |
| DownloadCli.HandleUrlRoundTrip | youtube-analyser/download_channel.py:141-162 | the channel page of a '/'-free handle is classified to itself with the handle as subfolder |
| DownloadCli.NormalizePlaylist | youtube-analyser/download_playlist.py:131-142 | empty is rejected; a PL id without youtube.com becomes its playlist page; otherwise the argument is accepted iff it contains "list=" in any case |
| DownloadCli.NormalizePlaylistIdempotent | youtube-analyser/download_playlist.py:136-142 | normalising an accepted URL accepts it unchanged |
| DownloadCli.PlaylistIdUrl | youtube-analyser/download_playlist.py:137-138 | a playlist id becomes `https://www.youtube.com/playlist?list={id}` |
| DownloadCli.FailedResults | youtube-analyser/download_channel.py:205 | the failed results are exactly the results with status "failed" |
| DownloadCli.ResultsExitCode | youtube-analyser/download_channel.py:226 | the exit code is 0 iff no result failed, and always 0 or 1 |
| DownloadCli.ChannelExitCode | youtube-analyser/download_channel.py:133-234 | the channel front end exits 0 iff the argument is accepted, the download returns, and no result failed |
| DownloadCli.PlaylistExitCode | youtube-analyser/download_playlist.py:131-200 | the playlist front end exits 0 iff the argument is accepted, the download returns, and no result failed |
| Video.ChooseThumbnail | youtube-analyser/services/video_service.py:476-487 | the two selection loops pick the first thumbnail whose url names maxresdefault, or else the first of largest area; that is the reference index |
| Video.ChosenThumbnailUnique | youtube-analyser/services/video_service.py:476-487 | the selection rule determines one index |
| Video.ChosenIndexChosen | youtube-analyser/services/video_service.py:476-487 | the reference index (first maxresdefault entry, else first of largest area) satisfies the selection rule, so a non-empty list always has a chosen entry |
| Video.ThumbnailBytesChosen | youtube-analyser/services/video_service.py:454-519 | what `download_thumbnail` gives is the fetch of whichever entry the selection rule chooses |
| Video.DownloadThumbnail | youtube-analyser/services/video_service.py:454-519 | no thumbnails gives None; otherwise the result is the fetch of the chosen thumbnail's url, and None when that entry has no url; the result is always `ThumbnailBytes` of the metadata |
| Video.SmallVideoPath | youtube-analyser/services/video_service.py:105 | the `-sm` copy keeps the parent and is named stem + "-sm" + suffix |
| Video.PrepareVideo | youtube-analyser/services/video_service.py:394-452 | an invalid path fails; an existing `-sm` copy is reused, and only then is the result a reuse |
| Video.TrimVideoIfNeeded | youtube-analyser/services/video_service.py:73-155 | a video not known to be longer than 170 seconds is not trimmed; a longer one follows the `-sm` rules |
| Transcription.ExtensionAccepted | youtube-analyser/services/transcription_service.py:78-81 | every whitelisted extension is accepted after any name, in lower or upper case |
| Transcription.ExtensionCheckIgnoresCase | youtube-analyser/services/transcription_service.py:78 | the format check does not depend on the path's case |
| Transcription.TextFileRejected | youtube-analyser/services/transcription_service.py:78-81 | a file whose name ends in ".txt" is rejected as unsupported, whatever comes before |
| Transcription.CheckInput | youtube-analyser/services/transcription_service.py:75-81 | the input passes iff it exists and has a whitelisted extension; the existence error comes first |
| Transcription.StemHasNoSlash | youtube-analyser/services/transcription_service.py:94-95 | a stem taken from the input never holds a '/' |
| Transcription.OutputPathParts | youtube-analyser/services/transcription_service.py:90-98 | the transcript is `{id}.txt` in the input's directory, or in "." when it has none |
| Transcription.StemSplitExt | youtube-analyser/services/transcription_service.py:95 | a dot-free stem with a whitelisted extension splits back into the two |
| Transcription.StemOutputPath | youtube-analyser/services/transcription_service.py:90-98 | without an id, `dir/stem.ext` is transcribed to `dir/stem.txt` |
| Transcription.PlainStamps | youtube-analyser/services/transcription_service.py:108-110 | one `[start -> end] text` line per segment, in order |
| Transcription.TranscribeFile | youtube-analyser/services/transcription_service.py:56-122 | check errors come first; a Whisper failure is wrapped with the path; on success the header, the rule and one stamp line per segment are written to the output path |
| Transcription.GetTranscriptionInfo | youtube-analyser/services/transcription_service.py:124-158 | only existence is checked; the result is Whisper's output or its wrapped error |
| Transcription.SameChecksAndPath | youtube-analyser/services/transcription_service.py:383-411 | the persona service accepts the same inputs and writes the same path as the plain one |
| Transcription.CacheAfter | youtube-analyser/services/transcription_service.py:275-298 | the alignment cache grows at most by the language's model and keeps every cached one |
| Transcription.CacheTransparent | youtube-analyser/services/transcription_service.py:275-298 | a cached model gives the same output as a fresh load, and the cache stays consistent |
| Transcription.DiarizedSegmentsShaped | youtube-analyser/services/transcription_service.py:366-378 | every output segment has a speaker ("UNKNOWN" when none was labelled) and stripped text |
| Transcription.PersonaTranscriptionService.constructor | youtube-analyser/services/transcription_service.py:162-241 | the service starts with an empty alignment cache |
| Transcription.PersonaTranscriptionService.AlignmentModel | youtube-analyser/services/transcription_service.py:277-285 | a language's model is loaded only when not cached, and then cached |
| Transcription.PersonaTranscriptionService.TranscribeAndDiarize | youtube-analyser/services/transcription_service.py:243-381 | the diarized output, updating the cache at most by the language aligned for |
| Transcription.PersonaTranscriptionService.TranscribeFile | youtube-analyser/services/transcription_service.py:383-451 | input errors first, otherwise the persona layout with header, speaker list and grouped stamps, or the wrapped error |
| Transcription.TranscribeTwice | youtube-analyser/services/transcription_service.py:277-285 | transcribing twice in one language loads its model once and gives the same output |
| Transcript.Finalize | youtube-analyser/services/transcription_service.py:366-378 | the speaker defaults to "UNKNOWN", times are kept and the text is stripped |
| Transcript.FinalTextStripped | youtube-analyser/services/transcription_service.py:375 | a final text has nothing left to strip, and is empty iff the raw text was all whitespace |
| Transcript.FinalizeAll | youtube-analyser/services/transcription_service.py:366-378 | one final entry per assigned segment, in order |
| Transcript.SortDistinct | youtube-analyser/services/transcription_service.py:424 | `sorted` of distinct speakers is sorted, as long, with the same members |
| Transcript.BeforeTotal | youtube-analyser/services/transcription_service.py:424 | Python's string order used by `sorted` puts any two different strings one before the other |
| Transcript.BeforeTransitive | youtube-analyser/services/transcription_service.py:424 | that order is transitive |
| Transcript.Insert | youtube-analyser/services/transcription_service.py:424 | inserting a new speaker into a sorted list keeps it sorted, adds exactly that speaker and grows it by one |
| Transcript.Named | youtube-analyser/services/transcription_service.py:418 | dropping "UNKNOWN" keeps exactly the other speakers and keeps them distinct |
| Transcript.Stamps | youtube-analyser/services/transcription_service.py:436-437 | one timestamp line per segment, line k for segment k |
| Transcript.RunsAppendBlock | youtube-analyser/services/transcription_service.py:427-437 | appending a one-speaker block whose speaker differs from the last run's adds exactly one run |
| Transcript.RenderRunsHeadersAtChanges | youtube-analyser/services/transcription_service.py:429-434 | rendering maximal runs puts a header exactly where the speaker changes, renders nothing only for no runs, and ends on the last run's speaker |
| Transcript.Speakers | youtube-analyser/test_persona_gemini.py:231-238 | speakers in order of first appearance, each once, exactly those of the segments |
| Transcript.HeaderListsSpeakerSet | youtube-analyser/services/transcription_service.py:415-424 | the header lists each speaker other than "UNKNOWN" exactly once, sorted |
| Transcript.FoundSpeakers | youtube-analyser/services/transcription_service.py:344-348 | the found speakers are those present, not empty and not "UNKNOWN" |
| Transcript.FoundSpeakersAreHeaderSpeakers | youtube-analyser/services/transcription_service.py:344-424 | a speaker logged as found is listed in the header, and conversely where the segment's label is present |
| Transcript.RunsPartition | youtube-analyser/services/transcription_service.py:427-437 | the runs split the segments into maximal one-speaker stretches |
| Transcript.RunsUnique | youtube-analyser/services/transcription_service.py:427-437 | maximal runs are exactly the runs of what they flatten to |
| Transcript.LayoutSegments | youtube-analyser/services/transcription_service.py:427-437 | the writer loop produces the layout of the segments' runs |
| Transcript.OneStampPerSegment | youtube-analyser/services/transcription_service.py:436-437 | exactly one timestamp line per segment, in input order |
| Transcript.LayoutProperties | youtube-analyser/test_persona_gemini.py:205-216 | headers and separators sit exactly at speaker changes, and the stamps are the segments in order |
| Transcript.LinesText | youtube-analyser/services/transcription_service.py:430-437 | one written line per layout line |
| Transcript.Rule | youtube-analyser/services/transcription_service.py:425 | the rule is n '=' characters |
| DiarizationScript.ScriptFinalize | youtube-analyser/test_persona_gemini.py:176-188 | the script's entry has the service's speaker and text, and times with an "s" appended |
| DiarizationScript.StampsAgree | youtube-analyser/test_persona_gemini.py:214-216 | the script and the persona service write the same stamp line for a segment |
| DiarizationScript.SaveTranscription | youtube-analyser/test_persona_gemini.py:194-216 | the banner, a blank line, then the grouped layout |
| DiarizationScript.SpeakerStats | youtube-analyser/test_persona_gemini.py:219-249 | one entry per speaker in first-appearance order, with its segment and word counts; the segment counts add up to the number of segments |
| DiarizationScript.StatsAddUp | youtube-analyser/test_persona_gemini.py:229-249 | entries for exactly the speakers with their counts add up to the number of segments |
| Embedding.ParseOp | youtube-analyser/test_ollama_embed.py:398-422 | a recognised operator name is the name of the operator it selects |
| Embedding.ParseOpName | youtube-analyser/test_ollama_embed.py:398-422 | all four operator names are recognised |
| Embedding.RangeConditions | youtube-analyser/test_ollama_embed.py:396-422 | at most one range condition per operator entry |
| Embedding.BuildMetadataFilter | youtube-analyser/test_ollama_embed.py:391-434 | the builder returns the filter of all conditions, or None when there are none |
| Embedding.RangeConditionsIn | youtube-analyser/test_ollama_embed.py:398-422 | a range condition is produced iff the criterion has that operator entry with that bound |
| Embedding.ConditionFromCriterion | youtube-analyser/test_ollama_embed.py:395-432 | every condition comes from some criterion |
| Embedding.CriterionConditionIn | youtube-analyser/test_ollama_embed.py:395-432 | every condition a criterion contributes is in the filter |
| Embedding.RangeConditionsEmpty | youtube-analyser/test_ollama_embed.py:398-422 | a dictionary contributes nothing iff no entry names an operator |
| Embedding.NoFilterIff | youtube-analyser/test_ollama_embed.py:434 | there is no filter iff every criterion is a dictionary without a range operator |
| Embedding.ListAndScalarCriteria | youtube-analyser/test_ollama_embed.py:423-432 | a list criterion becomes MatchAny and a scalar one MatchValue |
| Embedding.SentencePieces | youtube-analyser/test_ollama_embed.py:185 | `re.split` on terminator runs gives at least one piece |
| Embedding.BlankIsStrippedEmpty | youtube-analyser/test_ollama_embed.py:185 | a blank piece is one `strip()` leaves empty |
| Embedding.SentenceCountSplit | youtube-analyser/test_ollama_embed.py:185 | the head counts as a sentence unless blank, and the rest is counted on its own |
| Embedding.SentenceCountZeroIff | youtube-analyser/test_ollama_embed.py:185 | no sentence iff the text is only whitespace and terminators |
| Embedding.GenerateTextMetadata | youtube-analyser/test_ollama_embed.py:181-244 | character counts with and without spaces, the word, sentence and URL fields, a 100-character preview prefix and a 50-character suffix |
| Embedding.HasUrlsIff | youtube-analyser/test_ollama_embed.py:198 | `has_urls` holds iff `https?://` matches somewhere |
| Embedding.UrlSchemeSpelled | youtube-analyser/test_ollama_embed.py:198 | a match of the pattern is an occurrence of "http://" or "https://" |
| Embedding.SpelledUrlScheme | youtube-analyser/test_ollama_embed.py:198 | an occurrence of either spelling is a match |
| Embedding.WordCountZeroIff | youtube-analyser/test_ollama_embed.py:184 | no word iff the text is all whitespace |
| Embedding.TestTypes | youtube-analyser/test_ollama_embed.py:521 | one type per point, "unknown" when missing |
| Embedding.TypeDistribution | youtube-analyser/test_ollama_embed.py:549-552 | the distribution's keys are exactly the sample's types |
| Embedding.DistributionSums | youtube-analyser/test_ollama_embed.py:549-552 | enumerated in any order, the counts add up to the sample size and each is at least one |
| Paths.ParsePath | youtube-analyser/main.py:827 | `PurePosixPath` keeps only real components and is absolute iff the string starts with '/' |
| Paths.ParseOfPathString | youtube-analyser/services/video_service.py:105 | rendering a parsed path and parsing it again gives the same path |
| Paths.ParseIdempotent | youtube-analyser/main.py:827-831 | parsing the rendering of a parsed string changes nothing |
| Paths.Suffix | youtube-analyser/services/video_service.py:105 | the suffix is empty or a proper dotted tail of the name |
| Paths.Stem | youtube-analyser/services/video_service.py:105 | stem followed by suffix is the name |
| Paths.WithStem | youtube-analyser/services/video_service.py:410 | `with_stem` fails for a nameless path or an invalid new name, and otherwise keeps the parent and renames to stem + suffix |
| Paths.Basename | youtube-analyser/services/minio_service.py:138 | the basename has no '/' and ends the path |
| Paths.SplitExt | youtube-analyser/services/transcription_service.py:95 | root followed by extension is the name, and the extension is empty or starts with '.' |
| Paths.DirnameBasenameOfJoin | youtube-analyser/services/analysis_service.py:366-367 | dirname and basename of `d/b` give back d and b |
| Text.StripIsSlice | youtube-analyser/services/analysis_service.py:173 | `strip()` cuts exactly surrounding whitespace |
| Text.StripIdempotent | youtube-analyser/services/analysis_service.py:186 | stripping twice strips nothing more |
| Text.StripEmptyIff | youtube-analyser/services/analysis_service.py:337 | a string strips to empty iff it is all whitespace |
| Text.StripCharCuts | youtube-analyser/services/minio_service.py:141 | `strip('/')` leaves a string that neither starts nor ends with '/' |
| Text.CountChar | youtube-analyser/services/analysis_service.py:251 | `count` is at most the length, and zero iff the character is absent |
| Text.RemoveChar | youtube-analyser/services/youtube_download_service.py:28 | `replace(c, "")` removes exactly every occurrence |
| Text.SplitOn | youtube-analyser/services/analysis_service.py:173 | `split(c)` gives one more piece than occurrences, none containing c |
| Text.JoinSplit | youtube-analyser/services/analysis_service.py:173 | joining the pieces of a split restores the string |
| Text.Lower | youtube-analyser/services/transcription_service.py:78 | `lower()` maps each character |
| Text.ParseInt | youtube-analyser/services/analysis_service.py:192 | `int()` on ASCII digits: accepts exactly the optionally signed ASCII digit strings within whitespace |
| Text.ParseIntToString | youtube-analyser/services/analysis_service.py:192 | parsing the rendering of an integer gives it back |
| Text.NatToString | youtube-analyser/services/analysis_service.py:267 | `str(n)` is a non-empty digit string without a leading zero |
| Text.Utf8Length | youtube-analyser/services/bluesky_service.py:132-133 | the UTF-8 length lies between one and four bytes per character |
| Text.Utf8LengthPrefixMonotone | youtube-analyser/services/bluesky_service.py:132-133 | a longer prefix never encodes to fewer bytes |
| Text.Utf8LengthAscii | youtube-analyser/services/bluesky_service.py:132-133 | ASCII text encodes to one byte per character |

## Left out

- External programs and services run only as oracle parameters, and nothing about their behaviour is modelled. This covers ffmpeg and moviepy, faster-whisper, WhisperX and pyannote, Ollama's chat and embeddings, Qdrant, the MinIO SDK and bucket creation, atproto, HTTP, and yt-dlp.
- The local file system is modelled as a map from path to content. Write errors and temporary directories are not modelled.
- Logging, argparse, `sys.exit`, `.env` loading and `asyncio` are not modelled.
- Bluesky.Truncated: counts graphemes as code points, which is the library-free fallback of `_count_graphemes` without NFC normalisation. It is stated for limits of at least 3, while the source's default is 299.
- Bluesky.CreateFacets: takes the URL and hashtag regex matches as inputs. The regex engine itself is not modelled.
- Bluesky.BlueskyService.Post: records the text and alt texts that are sent. Whether facets are attached is not recorded.
- `post_with_youtube_facet`, `post_with_video` and the video upload helpers (`_upload_video_debug`, `_try_curl_upload`, `_poll_for_completion`) are not modelled. They are HTTP and subprocess flows whose outcome the post builder receives as an oracle.
- Analysis: `get_analysis_info`, the analysis and LinkedIn prompt templates, and the event-loop timestamp in the analysis header are not modelled. The timestamp is a parameter.
- Analysis.ReplyVerdict: models `int()` on ASCII digits with an optional sign. Underscores and non-ASCII digits are not accepted.
- Text.Upper: maps only the ASCII letters, where Python's `upper()` also maps non-ASCII letters, some to several characters. So `"YES" in line.upper()` (analysis_service.py:181) holds in Python for a line ending in "yeß" or "yeſ" but not in the model, which rejects such a reply line.
- Text.Lower: maps only the ASCII letters. On the source's uses (the ".mp4" check, the extension whitelist, "list=" and the true words) the result agrees with Python's `lower()`, but other non-ASCII case mappings are not modelled.
- Paths.ParsePath: drops the leading "//" that POSIX paths preserve (`PurePosixPath("//a/b")`). Object names are built with `strip('/')`, so the keys come out the same.
- Config.Coerce: takes `float()` as a parameter, because floating point is not modelled.
- Config.Coerce: `int()` is modelled on ASCII digits only (see `Text.ParseInt`). So `WHISPER_BEAM_SIZE="1_000"` gives 1000 in Python, but the model rejects it and keeps the default 5.
- Text.ParseInt: accepts only optionally signed ASCII digit strings. Python's `int()` also accepts underscores between digits ("1_000") and non-ASCII decimal digits, which the model rejects.
- Config: the five `get_*_config` accessors are not modelled. Each returns one section, which is `get(section)`.
- Config.ConfigService.GetAll: returns a value. The shallow copy's sharing of section dictionaries with the service is not modelled.
- Floats are not modelled:
  - durations, `total_duration` and the language probability are left out;
  - `.2f` timestamps are kept as the strings they render to;
  - the 170-second comparison of `trim_video_if_needed` is an input;
  - the embedding script's averages, the tech score and the statistics over embeddings are left out;
  - `has_numbers`, `has_special_chars`, `has_email` and `content_hash` are left out. These are regex and hash fields.
- Video: `get_video_duration`, `add_thumbnail_intro*` and `generate_and_upload_small_video` are not modelled. They are subprocess and moviepy work. Their outcomes are inputs of `PrepareVideo`.
- Pipeline: `generate_and_post_bluesky` is not modelled. It is switched off by `and False` at main.py:784. The small-video stage is also not modelled, because it is commented out at main.py:731-751.
- The front ends `DownloadCli.ChannelExitCode` and `DownloadCli.PlaylistExitCode` take the download as an oracle. The CLIs construct `YouTubeDownloadService` with keyword arguments its constructor does not take, and they call a `download_playlist` method it does not have. As written, the real scripts reach the `except` branch and exit 1. The model keeps the intended flow, and the download's failure covers that exit.
- Analyzer: `youtube_analyzer.py` passes `(audio_file, model_size, video_id)` to `transcribe_file`. The transcription service takes no model size, so the call's arity does not match. The model takes the transcription step as an oracle.
- Analyzer.YoutubeAnalyzer.constructor: the source constructor raises `TypeError` before any analysis can run. youtube_analyzer.py:48-53 passes `beam_size=` to `PersonaTranscriptionService`, whose `__init__` (transcription_service.py:162-169) takes `batch_size` and `hf_token` but no `beam_size`. The model follows the intended construction, as main.py:974 builds the service, and its constructor always succeeds.
- Transcript.Finalize: writes "UNKNOWN" for a segment whose speaker key holds `None`. The source does not. `segment.get("speaker", "UNKNOWN")` returns that `None` (transcription_service.py:369), the `None` enters the speaker set, and `', '.join(sorted(...))` at transcription_service.py:424 raises `TypeError`, so the source's transcription fails where the model writes a transcript.
- Transcription.OutputPathParts: states the parts for inputs whose directory does not end in '/'. A path directly under "/" is not covered.
- Transcript.FoundSpeakers: the found-speaker set is only logged by the source. The model relates it to the header and does nothing more with it.
- ProcessPlaylist: states each entry's Outcome, but not the requests each entry makes (the `Requests` of its run). An exception escaping `process_video` is not modelled, because the modelled `process_video` returns False instead of raising.
- ProcessPlaylist: entry titles are modelled as a string or missing. At main.py:895-896 the source evaluates `video.get("title", "Unknown Title")[:50]` for its log line, before the `try` at main.py:900. So a title that is `null` or a number raises `TypeError` there. The exception ends the whole batch, with no later entry processed, and main.py:1164-1166 exits with 1. The model cannot express such a title and takes every entry.
- ObjectStore: listing order, etag, last-modified time and `bucket_name` overrides are not modelled. `unreachable` stands for every S3 or transport error.

## Findings

| source | as written | input that shows it | evidently intended | confidence | as-written member | corrected member |
|---|---|---|---|---|---|---|
| youtube-analyser/services/minio_service.py:254-255 | `save_data_with_date` calls `save(data, folder, filename, …)`. `save`'s parameters are `(data, filename, content_type, …)`, so the object is named `{category}/{date}` and the file name becomes its content type. | category "stocks", date 2024-01-15, file "AAPL_1min.csv": the save writes `stocks/2024-01-15`, while `retrieve_data_with_date` reads `stocks/2024-01-15/AAPL_1min.csv` | store under `{category}/{date}/{filename}`, the object the dated read reads | not executed | ObjectStore.MinioService.DatedRoundTripAsWritten | ObjectStore.MinioService.DatedRoundTrip |
