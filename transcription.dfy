/** `TranscriptionService` and `PersonaTranscriptionService` of
    `services/transcription_service.py`: the input checks, the output path,
    the written transcript, and the persona service's per-language cache of
    alignment models. Whisper, WhisperX, pyannote and the GPU are oracles. */
module Transcription {
  import opened Wrappers
  import opened Text
  import opened Paths
  import opened Transcript

  const SupportedExtensions: seq<string> := [".mp4", ".mp3", ".wav", ".m4a", ".avi", ".mov"]

  /** The extension whitelist, checked on the lowercased path. */
  predicate SupportedFormat(path: string)
  {
    exists k :: 0 <= k < |SupportedExtensions| && EndsWith(Lower(path), SupportedExtensions[k])
  }

  lemma {:induction false} LowerAppend(a: string, b: string)
    ensures Lower(a + b) == Lower(a) + Lower(b)
  {
    assert forall i :: 0 <= i < |a + b| ==> (a + b)[i] == if i < |a| then a[i] else b[i - |a|];
  }

  lemma ExtensionsLowercase(k: nat)
    requires k < |SupportedExtensions|
    ensures NoUpperCase(SupportedExtensions[k])
    ensures |SupportedExtensions[k]| == 4 && SupportedExtensions[k][1] != 't'
  {
  }

  /** Every whitelisted extension is accepted after any name, in any case. */
  lemma {:induction false} ExtensionAccepted(name: string, k: nat)
    requires k < |SupportedExtensions|
    ensures SupportedFormat(name + SupportedExtensions[k])
    ensures SupportedFormat(name + Upper(SupportedExtensions[k]))
  {
    var e := SupportedExtensions[k];
    LowerAppend(name, e);
    LowerAppend(name, Upper(e));
    ExtensionsLowercase(k);
    LowerOfNoUpper(e);
    LowerAbsorbs(e);
    assert Lower(name + e)[|Lower(name + e)| - |e|..] == e;
    assert Lower(name + Upper(e))[|Lower(name + Upper(e))| - |e|..] == e;
  }

  /** The check does not depend on the case of the path. */
  lemma ExtensionCheckIgnoresCase(path: string)
    ensures SupportedFormat(Upper(path)) <==> SupportedFormat(path)
    ensures SupportedFormat(Lower(path)) <==> SupportedFormat(path)
  {
    LowerAbsorbs(path);
  }

  /** A text transcript is not a media file, whatever its name. */
  lemma {:induction false} TextFileRejected(stem: string)
    ensures !SupportedFormat(stem + ".txt")
  {
    var txt := ".txt";
    LowerAppend(stem, txt);
    LowerOfNoUpper(txt);
    var low := Lower(stem + txt);
    assert low[|low| - 4..] == txt;
    forall k | 0 <= k < |SupportedExtensions|
      ensures !EndsWith(low, SupportedExtensions[k])
    {
      ExtensionsLowercase(k);
      assert low[|low| - 4..][1] == 't';
    }
  }

  /** The errors `transcribe_file` raises. */
  datatype TranscribeError =
    | FileNotFound(message: string)
    | UnsupportedFormat(message: string)
    | TranscriptionFailed(message: string)

  /** The checks made before any transcription: existence, then format. */
  function CheckInput(filePath: string, pathExists: string -> bool): (r: Option<TranscribeError>)
    ensures r.None? <==> pathExists(filePath) && SupportedFormat(filePath)
    ensures !pathExists(filePath) ==> r == Some(FileNotFound("File not found: " + filePath))
    ensures pathExists(filePath) && !SupportedFormat(filePath) ==>
      r == Some(UnsupportedFormat("Unsupported file format: " + filePath))
  {
    if !pathExists(filePath) then Some(FileNotFound("File not found: " + filePath))
    else if !SupportedFormat(filePath) then Some(UnsupportedFormat("Unsupported file format: " + filePath))
    else None
  }

  /** The name the transcript is saved under: the video id when it is given
      and not empty, otherwise the input's file name without its extension. */
  function OutputId(filePath: string, videoId: Option<string>): string
  {
    if videoId.Some? && videoId.value != "" then videoId.value else SplitExt(Basename(filePath)).0
  }

  /** The input's directory, or "." when it has none. */
  function OutputDir(filePath: string): string
  {
    var d := Dirname(filePath);
    if d == "" then "." else d
  }

  function OutputPath(filePath: string, videoId: Option<string>): string
  {
    OutputDir(filePath) + "/" + OutputId(filePath, videoId) + ".txt"
  }

  /** A stem derived from the input never holds a '/'. */
  lemma StemHasNoSlash(filePath: string)
    ensures NoSlash(SplitExt(Basename(filePath)).0)
  {
    var b := Basename(filePath);
    var r := SplitExt(b);
    assert r.0 == b[..|r.0|];
  }

  /** The transcript's file name holds no '/'. */
  lemma OutputIdNoSlash(filePath: string, videoId: Option<string>)
    requires videoId.Some? ==> NoSlash(videoId.value)
    ensures NoSlash(OutputId(filePath, videoId) + ".txt")
  {
    StemHasNoSlash(filePath);
    NoSlashAppend(OutputId(filePath, videoId), ".txt");
  }

  /** The transcript sits in the input's directory (or "." when it has none),
      named after the id; the directory part is lost only for inputs at "/". */
  lemma {:induction false} OutputPathParts(filePath: string, videoId: Option<string>)
    requires videoId.Some? ==> NoSlash(videoId.value)
    requires !EndsWith(OutputDir(filePath), "/")
    ensures Basename(OutputPath(filePath, videoId)) == OutputId(filePath, videoId) + ".txt"
    ensures Dirname(OutputPath(filePath, videoId)) == OutputDir(filePath)
  {
    OutputIdNoSlash(filePath, videoId);
    OutputPathIsJoin(filePath, videoId);
    DirnameBasenameOfJoin(OutputDir(filePath), OutputId(filePath, videoId) + ".txt");
  }

  lemma OutputPathIsJoin(filePath: string, videoId: Option<string>)
    requires !EndsWith(OutputDir(filePath), "/")
    ensures OutputDir(filePath) != ""
    ensures OutputPath(filePath, videoId) == JoinPath(OutputDir(filePath), OutputId(filePath, videoId) + ".txt")
  {
    var d := OutputDir(filePath);
    var id := OutputId(filePath, videoId);
    assert d + "/" + id + ".txt" == d + "/" + (id + ".txt");
  }

  /** A dot-free stem followed by a whitelisted extension splits back into the two. */
  lemma {:induction false} StemSplitExt(stem: string, k: nat)
    requires k < |SupportedExtensions|
    requires stem != [] && forall i :: 0 <= i < |stem| ==> stem[i] != '.'
    ensures SplitExt(stem + SupportedExtensions[k]) == (stem, SupportedExtensions[k])
  {
    var e := SupportedExtensions[k];
    var name := stem + e;
    assert |e| == 4 && e[0] == '.' && e[1] != '.' && e[2] != '.' && e[3] != '.';
    assert name[|stem|] == '.';
    assert forall i :: |stem| < i < |name| ==> name[i] == e[i - |stem|];
    assert LastIndexOf(name, '.') == Some(|stem|);
    assert name[0] != '.';
    assert name[..|stem|] == stem && name[|stem|..] == e;
  }

  /** Without an id, `dir/stem.ext` is transcribed to `dir/stem.txt`. */
  lemma {:induction false} StemOutputPath(dir: string, stem: string, k: nat)
    requires k < |SupportedExtensions|
    requires dir != "" && !EndsWith(dir, "/")
    requires stem != [] && forall i :: 0 <= i < |stem| ==> stem[i] != '/' && stem[i] != '.'
    ensures OutputPath(dir + "/" + stem + SupportedExtensions[k], None) == dir + "/" + stem + ".txt"
    ensures OutputPath(dir + "/" + stem + SupportedExtensions[k], Some("")) == dir + "/" + stem + ".txt"
  {
    var e := SupportedExtensions[k];
    var name := stem + e;
    assert NoSlash(name) by {
      assert e[0] != '/' && e[1] != '/' && e[2] != '/' && e[3] != '/';
      assert forall i :: |stem| <= i < |name| ==> name[i] == e[i - |stem|];
    }
    DirnameBasenameOfJoin(dir, name);
    assert JoinPath(dir, name) == dir + "/" + stem + e;
    StemSplitExt(stem, k);
  }

  // ---------------------------------------------------------------------
  // TranscriptionService

  /** A segment of Whisper's output, its times already rendered. */
  datatype TimedText = TimedText(start: string, end: string, text: string)

  /** What `model.transcribe` yields: the detected language, its probability
      as rendered with two decimals, and the segments. */
  datatype WhisperOutput = WhisperOutput(language: string, probability: string, segments: seq<TimedText>)

  /** A written text file, as its lines. */
  datatype Written = Written(path: string, lines: seq<string>)

  function PlainStamps(segs: seq<TimedText>): (ls: seq<string>)
    ensures |ls| == |segs|
    ensures forall k :: 0 <= k < |segs| ==> ls[k] == TimestampLine(segs[k].start, segs[k].end, segs[k].text)
  {
    seq(|segs|, k requires 0 <= k < |segs| => TimestampLine(segs[k].start, segs[k].end, segs[k].text))
  }

  /** `TranscriptionService.transcribe_file`: the input checks, then one
      Whisper pass (`whisper`), written as a three-line header, a blank line
      and one timestamp line per segment. */
  function TranscribeFile(filePath: string, videoId: Option<string>, pathExists: string -> bool,
                          whisper: string -> Result<WhisperOutput, string>): (r: Result<Written, TranscribeError>)
    ensures CheckInput(filePath, pathExists).Some? ==> r == Failure(CheckInput(filePath, pathExists).value)
    ensures CheckInput(filePath, pathExists).None? && whisper(filePath).Failure? ==>
      r == Failure(TranscriptionFailed("Transcription failed for " + filePath + ": " + whisper(filePath).error))
    ensures r.Success? ==>
      var out := whisper(filePath).value;
      && pathExists(filePath) && SupportedFormat(filePath) && whisper(filePath).Success?
      && r.value.path == OutputPath(filePath, videoId)
      && |r.value.lines| == 4 + |out.segments|
      && r.value.lines[0] == "Transcription of: " + filePath
      && r.value.lines[1] == "Detected language: " + out.language + " (probability: " + out.probability + ")"
      && r.value.lines[2] == Rule(50) && r.value.lines[3] == ""
      && forall k :: 0 <= k < |out.segments| ==>
           r.value.lines[4 + k] == TimestampLine(out.segments[k].start, out.segments[k].end, out.segments[k].text)
  {
    match CheckInput(filePath, pathExists)
    case Some(e) => Failure(e)
    case None =>
      match whisper(filePath)
      case Failure(e) => Failure(TranscriptionFailed("Transcription failed for " + filePath + ": " + e))
      case Success(out) =>
        var header := ["Transcription of: " + filePath,
                       "Detected language: " + out.language + " (probability: " + out.probability + ")",
                       Rule(50), ""];
        Success(Written(OutputPath(filePath, videoId), header + PlainStamps(out.segments)))
  }

  /** `get_transcription_info`: only existence is checked; a Whisper failure
      is reported with its own prefix. */
  function GetTranscriptionInfo(filePath: string, pathExists: string -> bool,
                                whisper: string -> Result<WhisperOutput, string>): (r: Result<WhisperOutput, TranscribeError>)
    ensures !pathExists(filePath) ==> r == Failure(FileNotFound("File not found: " + filePath))
    ensures pathExists(filePath) && whisper(filePath).Failure? ==>
      r == Failure(TranscriptionFailed("Failed to get transcription info for " + filePath + ": " + whisper(filePath).error))
    ensures r.Success? <==> pathExists(filePath) && whisper(filePath).Success?
    ensures r.Success? ==> r.value == whisper(filePath).value
  {
    if !pathExists(filePath) then Failure(FileNotFound("File not found: " + filePath))
    else match whisper(filePath)
      case Failure(e) => Failure(TranscriptionFailed("Failed to get transcription info for " + filePath + ": " + e))
      case Success(out) => Success(out)
  }

  /** Both services accept and reject the same inputs, and name their
      output the same way. */
  lemma SameChecksAndPath(filePath: string, videoId: Option<string>, pathExists: string -> bool,
                          whisper: string -> Result<WhisperOutput, string>)
    requires whisper(filePath).Success?
    ensures TranscribeFile(filePath, videoId, pathExists, whisper).Success? <==> CheckInput(filePath, pathExists).None?
    ensures TranscribeFile(filePath, videoId, pathExists, whisper).Success? ==>
      TranscribeFile(filePath, videoId, pathExists, whisper).value.path == OutputPath(filePath, videoId)
  {
  }

  // ---------------------------------------------------------------------
  // PersonaTranscriptionService

  /** The WhisperX, alignment and diarization collaborators; `Failure` is an
      exception. Models are handles. `transcribe` loads the audio and
      returns the detected language with the unaligned segments. */
  datatype Stages = Stages(
    transcribe: string -> Result<(string, seq<RawSegment>), string>,
    loadAlign: string -> Result<nat, string>,
    align: (nat, seq<RawSegment>) -> Result<seq<RawSegment>, string>,
    diarize: string -> Result<nat, string>,
    assign: (nat, seq<RawSegment>) -> Result<seq<RawSegment>, string>)

  /** The language actually aligned for: the detected one for "auto". */
  function AlignLanguage(language: string, detected: string): string
  {
    if language == "auto" then detected else language
  }

  /** The alignment model used for `lang`: the cached one, else a fresh load. */
  function AlignModel(lang: string, models: map<string, nat>, st: Stages): Result<nat, string>
  {
    if lang in models then Success(models[lang]) else st.loadAlign(lang)
  }

  /** The cache after the alignment step: grown by the language's model when
      it was missing and loaded. */
  function CacheAfter(lang: string, models: map<string, nat>, st: Stages): (m: map<string, nat>)
    ensures models.Keys <= m.Keys <= models.Keys + {lang}
    ensures forall l :: l in models ==> l in m && m[l] == models[l]
  {
    if lang !in models && st.loadAlign(lang).Success? then models[lang := st.loadAlign(lang).value] else models
  }

  /** The segments of `_transcribe_and_diarize_whisperx` after the
      alignment step, with the error message of the first step that fails. */
  function Aligned(audioPath: string, language: string, models: map<string, nat>, pathExists: string -> bool,
                   st: Stages): Result<(string, seq<RawSegment>), string>
  {
    if !pathExists(audioPath) then Failure("Audio file not found at: " + audioPath)
    else match st.transcribe(audioPath)
      case Failure(e) => Failure("Failed to transcribe audio on GPU: " + e)
      case Success(t) =>
        var lang := AlignLanguage(language, t.0);
        match AlignModel(lang, models, st)
        case Failure(e) => Failure("Failed to align timestamps on GPU: " + e)
        case Success(m) =>
          match st.align(m, t.1)
          case Failure(e) => Failure("Failed to align timestamps on GPU: " + e)
          case Success(segs) => Success((lang, segs))
  }

  /** The final output of `_transcribe_and_diarize_whisperx`. */
  function Diarized(audioPath: string, language: string, models: map<string, nat>, pathExists: string -> bool,
                    st: Stages): Result<seq<Segment>, string>
  {
    match Aligned(audioPath, language, models, pathExists, st)
    case Failure(e) => Failure(e)
    case Success(a) =>
      match st.diarize(audioPath)
      case Failure(e) => Failure("Failed to perform diarization on GPU: " + e)
      case Success(d) =>
        match st.assign(d, a.1)
        case Failure(e) => Failure("Failed to assign speakers: " + e)
        case Success(labelled) => Success(seq(|labelled|, k requires 0 <= k < |labelled| => Finalize(labelled[k])))
  }

  /** Every cached model is the one loading its language gives. */
  predicate CacheAgrees(models: map<string, nat>, st: Stages)
  {
    forall l :: l in models ==> st.loadAlign(l) == Success(models[l])
  }

  /** Reusing a cached model changes nothing: the output is the one of a
      fresh service, and loading keeps the cache agreeing. */
  lemma CacheTransparent(audioPath: string, language: string, models: map<string, nat>,
                         pathExists: string -> bool, st: Stages)
    requires CacheAgrees(models, st)
    ensures Diarized(audioPath, language, models, pathExists, st) == Diarized(audioPath, language, map[], pathExists, st)
    ensures forall lang :: CacheAgrees(CacheAfter(lang, models, st), st)
  {
    assert forall lang :: AlignModel(lang, models, st) == AlignModel(lang, map[], st);
    assert Aligned(audioPath, language, models, pathExists, st) == Aligned(audioPath, language, map[], pathExists, st);
  }

  /** Each output segment has a speaker ("UNKNOWN" when none was labelled)
      and stripped text, one per labelled segment. */
  lemma DiarizedSegmentsShaped(audioPath: string, language: string, models: map<string, nat>,
                               pathExists: string -> bool, st: Stages, k: nat)
    requires Diarized(audioPath, language, models, pathExists, st).Success?
    requires k < |Diarized(audioPath, language, models, pathExists, st).value|
    ensures var segs := Diarized(audioPath, language, models, pathExists, st).value;
            Strip(segs[k].text) == segs[k].text
            && (segs[k].speaker == Unknown || exists j :: 0 <= j < |segs| && segs[k].speaker == segs[j].speaker)
  {
    var a := Aligned(audioPath, language, models, pathExists, st).value;
    var labelled := st.assign(st.diarize(audioPath).value, a.1).value;
    FinalTextStripped(labelled[k]);
  }

  /** The lines `transcribe_file` writes for diarized segments. */
  function PersonaLines(filePath: string, segs: seq<Segment>): seq<string>
  {
    ["Persona Transcription of: " + filePath,
     "Identified speakers: " + Join(HeaderSpeakers(segs), ", "),
     Rule(50), ""]
    + LinesText(RenderRuns(Runs(segs)), StampText)
  }

  class PersonaTranscriptionService {
    const stages: Stages
    /** `_align_models`: the alignment model of each language loaded so far. */
    var alignModels: map<string, nat>
    /** The languages whose model was loaded, in order. */
    ghost var loads: seq<string>

    /** Every model was loaded exactly once, and is what loading gives. */
    ghost predicate Valid()
      reads this
    {
      CacheAgrees(alignModels, stages)
      && (forall i, j :: 0 <= i < j < |loads| ==> loads[i] != loads[j])
      && forall l :: l in alignModels <==> l in loads
    }

    constructor (stages: Stages)
      ensures Valid() && this.stages == stages && alignModels == map[] && loads == []
    {
      this.stages := stages;
      alignModels := map[];
      loads := [];
    }

    /** The load-or-reuse step of the alignment stage. */
    method AlignmentModel(lang: string) returns (r: Result<nat, string>)
      requires Valid()
      modifies this
      ensures Valid()
      ensures r == AlignModel(lang, old(alignModels), stages)
      ensures alignModels == CacheAfter(lang, old(alignModels), stages)
      ensures loads == if lang !in old(alignModels) && r.Success? then old(loads) + [lang] else old(loads)
    {
      if lang !in alignModels {
        r := stages.loadAlign(lang);
        if r.Success? {
          alignModels := alignModels[lang := r.value];
          loads := loads + [lang];
        }
      } else {
        r := Success(alignModels[lang]);
      }
    }

    /** `_transcribe_and_diarize_whisperx`. */
    method TranscribeAndDiarize(audioPath: string, language: string, pathExists: string -> bool)
      returns (r: Result<seq<Segment>, string>)
      requires Valid()
      modifies this
      ensures Valid()
      ensures r == Diarized(audioPath, language, old(alignModels), pathExists, stages)
      ensures alignModels == if pathExists(audioPath) && stages.transcribe(audioPath).Success?
        then CacheAfter(AlignLanguage(language, stages.transcribe(audioPath).value.0), old(alignModels), stages)
        else old(alignModels)
      ensures |loads| <= |old(loads)| + 1 && (alignModels == old(alignModels) ==> loads == old(loads))
    {
      if !pathExists(audioPath) {
        return Failure("Audio file not found at: " + audioPath);
      }
      var t := stages.transcribe(audioPath);
      if t.Failure? {
        return Failure("Failed to transcribe audio on GPU: " + t.error);
      }
      var lang := AlignLanguage(language, t.value.0);
      var m := AlignmentModel(lang);
      if m.Failure? {
        return Failure("Failed to align timestamps on GPU: " + m.error);
      }
      var aligned := stages.align(m.value, t.value.1);
      if aligned.Failure? {
        return Failure("Failed to align timestamps on GPU: " + aligned.error);
      }
      var d := stages.diarize(audioPath);
      if d.Failure? {
        return Failure("Failed to perform diarization on GPU: " + d.error);
      }
      var labelled := stages.assign(d.value, aligned.value);
      if labelled.Failure? {
        return Failure("Failed to assign speakers: " + labelled.error);
      }
      var out := FinalizeAll(labelled.value);
      assert out == seq(|labelled.value|, k requires 0 <= k < |labelled.value| => Finalize(labelled.value[k]));
      r := Success(out);
    }

    /** `PersonaTranscriptionService.transcribe_file`. */
    method TranscribeFile(filePath: string, videoId: Option<string>, pathExists: string -> bool)
      returns (r: Result<Written, TranscribeError>)
      requires Valid()
      modifies this
      ensures Valid()
      ensures CheckInput(filePath, pathExists).Some? ==>
        r == Failure(CheckInput(filePath, pathExists).value) && alignModels == old(alignModels)
      ensures CheckInput(filePath, pathExists).None? ==>
        match Diarized(filePath, "auto", old(alignModels), pathExists, stages)
        case Failure(e) => r == Failure(TranscriptionFailed("Persona transcription failed for " + filePath + ": " + e))
        case Success(segs) => r == Success(Written(OutputPath(filePath, videoId), PersonaLines(filePath, segs)))
    {
      var check := CheckInput(filePath, pathExists);
      if check.Some? {
        return Failure(check.value);
      }
      var d := TranscribeAndDiarize(filePath, "auto", pathExists);
      if d.Failure? {
        return Failure(TranscriptionFailed("Persona transcription failed for " + filePath + ": " + d.error));
      }
      var segs := d.value;
      var speakers := HeaderSpeakers(segs);
      var layout := LayoutSegments(segs);
      var lines := ["Persona Transcription of: " + filePath,
                    "Identified speakers: " + Join(speakers, ", "),
                    Rule(50), ""]
                   + LinesText(layout, StampText);
      r := Success(Written(OutputPath(filePath, videoId), lines));
    }
  }

  /** Transcribing twice in the same language loads its model only once:
      the second call finds it cached and records no load. */
  method TranscribeTwice(s: PersonaTranscriptionService, audioPath: string, language: string, pathExists: string -> bool)
    returns (first: Result<seq<Segment>, string>, second: Result<seq<Segment>, string>)
    requires s.Valid() && language != "auto"
    requires pathExists(audioPath) && s.stages.transcribe(audioPath).Success?
    requires s.stages.loadAlign(language).Success?
    modifies s
    ensures s.Valid()
    ensures language in s.alignModels
    ensures |s.loads| <= |old(s.loads)| + 1
    ensures second == first
  {
    first := s.TranscribeAndDiarize(audioPath, language, pathExists);
    ghost var afterFirst := s.loads;
    CacheTransparent(audioPath, language, old(s.alignModels), pathExists, s.stages);
    second := s.TranscribeAndDiarize(audioPath, language, pathExists);
    CacheTransparent(audioPath, language, s.alignModels, pathExists, s.stages);
  }
}
