/** `OllamaAnalysisService` of `services/analysis_service.py`: the Bluesky
    post generate/validate loop, the parser of the model's validation answer
    with its deterministic manual fallback, and the file names and contents
    of the analysis and LinkedIn outputs. The Ollama chat calls are oracles
    of the operations that make them. */
module Analysis {
  import opened Wrappers
  import opened Text
  import Paths

  /** The post length limit and the hashtag minimum the validators enforce. */
  const PostCharLimit: nat := 290
  const MinHashtags: nat := 2
  /** The number of generate/validate cycles `generate_bluesky_post` allows. */
  const MaxIterations: nat := 5

  const Approved := "APPROVED"
  const ManualFailurePrefix := "Manual validation failed: "
  const NoFeedbackGuidance := "No previous feedback - create your best post."

  /** A validator's answer: whether the post passes, and the feedback text. */
  datatype Verdict = Verdict(meets: bool, feedback: string)

  /** The two hard constraints on a post, counted on code points. */
  predicate MeetsLimits(post: string)
  {
    |post| <= PostCharLimit && CountChar(post, '#') >= MinHashtags
  }

  function TooLongIssue(n: nat): string
  {
    "Too long (" + NatToString(n) + "/290 characters)"
  }

  function HashtagIssue(n: nat): string
  {
    "Need more hashtags (" + NatToString(n) + "/2 minimum)"
  }

  /** The issues `_manual_validate_post` lists: the length issue before the
      hashtag issue, each present exactly when its constraint is broken. */
  function ManualIssues(post: string): (issues: seq<string>)
    ensures issues == [] <==> MeetsLimits(post)
    ensures |issues| == (if |post| > PostCharLimit then 1 else 0) + (if CountChar(post, '#') < MinHashtags then 1 else 0)
    ensures |post| > PostCharLimit ==> issues[0] == TooLongIssue(|post|)
    ensures CountChar(post, '#') < MinHashtags ==> issues[|issues| - 1] == HashtagIssue(CountChar(post, '#'))
  {
    (if |post| > PostCharLimit then [TooLongIssue(|post|)] else [])
    + (if CountChar(post, '#') < MinHashtags then [HashtagIssue(CountChar(post, '#'))] else [])
  }

  /** `_manual_validate_post`: accepts exactly the posts of at most 290
      characters with at least two '#'; a rejection names every broken
      constraint. */
  function ManualValidatePost(post: string): (r: Verdict)
    ensures r.meets <==> MeetsLimits(post)
    ensures r.meets ==> r.feedback == Approved
    ensures !r.meets ==> r.feedback == ManualFailurePrefix + Join(ManualIssues(post), ", ")
    ensures !r.meets ==> StartsWith(r.feedback, ManualFailurePrefix)
  {
    if MeetsLimits(post) then Verdict(true, Approved)
    else Verdict(false, ManualFailurePrefix + Join(ManualIssues(post), ", "))
  }

  /** The kind of a line of the validation answer, checked in the order of the
      source's `if`/`elif` chain: a line mentioning several markers counts as
      the first of them. */
  datatype LineKind = MeetsLine | GuidanceLine | CharCountLine | HashtagCountLine | OtherLine

  function Classify(line: string): LineKind
  {
    if Contains(line, "MEETS_REQUIREMENTS:") then MeetsLine
    else if Contains(line, "IMPROVEMENT_GUIDANCE:") then GuidanceLine
    else if Contains(line, "CHARACTER_COUNT:") then CharCountLine
    else if Contains(line, "HASHTAG_COUNT:") then HashtagCountLine
    else OtherLine
  }

  /** `line.split(":", 1)[1]`: the text after the first ':'. */
  function AfterColon(line: string): string
  {
    match Find(line, ":")
    case Some(i) => line[i + 1..]
    case None => ""
  }

  /** The verdict a MEETS_REQUIREMENTS line gives. */
  predicate SaysYes(line: string)
  {
    Contains(Upper(line), "YES")
  }

  /** The values the parser has collected so far. */
  datatype ParseState = ParseState(meets: bool, guidance: string, charCount: Option<int>, hashtagCount: Option<int>)

  const InitialParse := ParseState(false, "", None, None)

  /** One line of the answer applied to the collected values: a count that
      `int()` cannot read leaves the previous value in place. */
  function ParseStep(st: ParseState, line: string): ParseState
  {
    match Classify(line)
    case MeetsLine => st.(meets := SaysYes(line))
    case GuidanceLine => st.(guidance := Strip(AfterColon(line)))
    case CharCountLine =>
      var n := ParseInt(Strip(AfterColon(line)));
      if n.Some? then st.(charCount := n) else st
    case HashtagCountLine =>
      var n := ParseInt(Strip(AfterColon(line)));
      if n.Some? then st.(hashtagCount := n) else st
    case OtherLine => st
  }

  /** The values collected from `lines`, read first to last. */
  function ParseLines(lines: seq<string>): ParseState
  {
    if lines == [] then InitialParse else ParseStep(ParseLines(lines[..|lines| - 1]), lines[|lines| - 1])
  }

  /** The stripped, non-blank lines of a reply: every kept line is stripped
      and not empty, and the kept lines are exactly the non-blank pieces'
      stripped forms, taken in order (KeptLinesAppend). */
  function KeptLines(pieces: seq<string>): (lines: seq<string>)
    ensures |lines| <= |pieces|
    ensures forall k :: 0 <= k < |lines| ==> lines[k] != "" && Strip(lines[k]) == lines[k]
    ensures forall x :: x in lines <==> x != "" && exists j :: 0 <= j < |pieces| && Strip(pieces[j]) == x
  {
    if pieces == [] then []
    else
      var init, last := pieces[..|pieces| - 1], pieces[|pieces| - 1];
      StripIdempotent(last);
      assert forall j :: 0 <= j < |pieces| - 1 ==> pieces[j] == init[j];
      KeptLines(init) + (if Strip(last) != "" then [Strip(last)] else [])
  }

  /** Keeping lines commutes with concatenation: the kept lines of a reply
      are those of its first part followed by those of the rest. */
  lemma {:induction false} KeptLinesAppend(a: seq<string>, b: seq<string>)
    ensures KeptLines(a + b) == KeptLines(a) + KeptLines(b)
    decreases |b|
  {
    if b == [] {
      assert a + b == a;
    } else {
      var b' := b[..|b| - 1];
      assert (a + b)[..|a + b| - 1] == a + b';
      assert (a + b)[|a + b| - 1] == b[|b| - 1];
      KeptLinesAppend(a, b');
    }
  }

  function ReplyLines(reply: string): seq<string>
  {
    KeptLines(SplitOn(reply, '\n'))
  }

  /** A reply too short to be parsed: `not r or len(r) < 10` on the stripped reply. */
  predicate TooShort(reply: string)
  {
    |Strip(reply)| < 10
  }

  /** The parsed reply gives both counts. */
  predicate HasCounts(st: ParseState)
  {
    st.charCount.Some? && st.hashtagCount.Some?
  }

  /** The verdict of `_validate_bluesky_post` on the validator's reply
      (`None` when the chat call raised): every reply that cannot be used
      falls back to the manual verdict; a usable reply gives its own
      MEETS_REQUIREMENTS verdict and guidance, whatever the counts say. */
  function ReplyVerdict(post: string, reply: Option<string>): (r: Verdict)
    ensures reply.None? || TooShort(reply.value) ==> r == ManualValidatePost(post)
    ensures reply.Some? && !TooShort(reply.value) ==>
      var st := ParseLines(ReplyLines(Strip(reply.value)));
      r == if HasCounts(st) then Verdict(st.meets, st.guidance) else ManualValidatePost(post)
  {
    match reply
    case None => ManualValidatePost(post)
    case Some(raw) =>
      var text := Strip(raw);
      if |text| < 10 then ManualValidatePost(post)
      else
        var st := ParseLines(ReplyLines(text));
        if HasCounts(st) then Verdict(st.meets, st.guidance) else ManualValidatePost(post)
  }

  /** The reply parser's loop over the lines. */
  method ParseValidationLines(lines: seq<string>) returns (st: ParseState)
    ensures st == ParseLines(lines)
  {
    var meets, guidance, charCount, hashtagCount := false, "", None, None;
    var i := 0;
    while i < |lines|
      invariant 0 <= i <= |lines|
      invariant ParseState(meets, guidance, charCount, hashtagCount) == ParseLines(lines[..i])
    {
      assert lines[..i + 1][..i] == lines[..i];
      var line := lines[i];
      var kind := Classify(line);
      if kind == MeetsLine {
        meets := SaysYes(line);
      } else if kind == GuidanceLine {
        guidance := Strip(AfterColon(line));
      } else if kind == CharCountLine {
        var n := ParseInt(Strip(AfterColon(line)));
        if n.Some? {
          charCount := n;
        }
      } else if kind == HashtagCountLine {
        var n := ParseInt(Strip(AfterColon(line)));
        if n.Some? {
          hashtagCount := n;
        }
      }
      i := i + 1;
    }
    assert lines[..i] == lines;
    st := ParseState(meets, guidance, charCount, hashtagCount);
  }

  /** `_validate_bluesky_post`, given the validator's reply. */
  method ValidateBlueskyPost(post: string, reply: Option<string>) returns (r: Verdict)
    ensures r == ReplyVerdict(post, reply)
  {
    if reply.None? {
      return ManualValidatePost(post);
    }
    var text := Strip(reply.value);
    if |text| < 10 {
      return ManualValidatePost(post);
    }
    var st := ParseValidationLines(ReplyLines(text));
    if st.charCount.None? || st.hashtagCount.None? {
      return ManualValidatePost(post);
    }
    r := Verdict(st.meets, st.guidance);
  }

  /** The last MEETS_REQUIREMENTS line decides the verdict. */
  lemma {:induction false} LastMeetsLineDecides(lines: seq<string>, i: nat)
    requires i < |lines| && Classify(lines[i]) == MeetsLine
    requires forall j :: i < j < |lines| ==> Classify(lines[j]) != MeetsLine
    ensures ParseLines(lines).meets == SaysYes(lines[i])
  {
    var init := lines[..|lines| - 1];
    if i < |lines| - 1 {
      LastMeetsLineDecides(init, i);
    }
  }

  /** Without a MEETS_REQUIREMENTS line the verdict is a rejection. */
  lemma {:induction false} NoMeetsLineRejects(lines: seq<string>)
    requires forall j :: 0 <= j < |lines| ==> Classify(lines[j]) != MeetsLine
    ensures !ParseLines(lines).meets
  {
    if lines != [] {
      NoMeetsLineRejects(lines[..|lines| - 1]);
    }
  }

  /** A CHARACTER_COUNT line whose value `int()` reads. */
  predicate ReadsCharCount(line: string)
  {
    Classify(line) == CharCountLine && ParseInt(Strip(AfterColon(line))).Some?
  }

  /** The character count is the one of the last readable CHARACTER_COUNT
      line: later unreadable ones do not erase it. */
  lemma {:induction false} LastReadableCharCount(lines: seq<string>, i: nat)
    requires i < |lines| && ReadsCharCount(lines[i])
    requires forall j :: i < j < |lines| ==> !ReadsCharCount(lines[j])
    ensures ParseLines(lines).charCount == ParseInt(Strip(AfterColon(lines[i])))
  {
    var init := lines[..|lines| - 1];
    if i < |lines| - 1 {
      LastReadableCharCount(init, i);
    }
  }

  /** Without a readable CHARACTER_COUNT line the count is missing, so the
      reply falls back to the manual verdict. */
  lemma {:induction false} NoReadableCharCount(lines: seq<string>)
    requires forall j :: 0 <= j < |lines| ==> !ReadsCharCount(lines[j])
    ensures ParseLines(lines).charCount == None
  {
    if lines != [] {
      NoReadableCharCount(lines[..|lines| - 1]);
    }
  }

  /** A count line that cannot be read changes nothing. */
  lemma UnreadableCountIgnored(lines: seq<string>, line: string)
    requires Classify(line) == CharCountLine || Classify(line) == HashtagCountLine
    requires ParseInt(Strip(AfterColon(line))).None?
    ensures ParseLines(lines + [line]) == ParseLines(lines)
  {
    assert (lines + [line])[..|lines|] == lines;
  }

  /** The prompt of one generation attempt: the template's three fields.
      The template text itself is loaded from a file and is not modelled. */
  datatype BlueskyPrompt = BlueskyPrompt(analysisContent: string, videoId: string, improvementGuidance: string)

  /** `_create_bluesky_prompt`: empty guidance is replaced by the no-feedback text. */
  function CreateBlueskyPrompt(analysisContent: string, videoId: string, guidance: string): (p: BlueskyPrompt)
    ensures p.analysisContent == analysisContent && p.videoId == videoId
    ensures p.improvementGuidance != ""
    ensures guidance != "" ==> p.improvementGuidance == guidance
  {
    BlueskyPrompt(analysisContent, videoId, if guidance == "" then NoFeedbackGuidance else guidance)
  }

  /** The truncation applied to the last candidate: longer than 290
      characters becomes its first 287 characters and "...". */
  function ForceFit(post: string): (r: string)
    ensures |r| <= PostCharLimit || r == post
    ensures |post| <= PostCharLimit ==> r == post
    ensures |post| > PostCharLimit ==> |r| == PostCharLimit && r == post[..PostCharLimit - 3] + "..."
  {
    if |post| > PostCharLimit then post[..PostCharLimit - 3] + "..." else post
  }

  /** One generate/validate cycle: the prompt sent, the stripped candidate
      and the validator's verdict on it. */
  datatype Attempt = Attempt(prompt: BlueskyPrompt, candidate: string, verdict: Verdict)

  function GenerationError(videoId: string, cause: string): string
  {
    "Failed to generate Bluesky post for video " + videoId + ": " + cause
  }

  /** The attempt `k` (1-based) makes from `prompt`, once the generator answered. */
  predicate IsAttempt(a: Attempt, k: nat, prompt: BlueskyPrompt, generate: (nat, BlueskyPrompt) -> Result<string, string>,
                      validate: (nat, string) -> Option<string>)
  {
    a.prompt == prompt
    && generate(k, prompt).Success? && a.candidate == Strip(generate(k, prompt).value)
    && a.verdict == ReplyVerdict(a.candidate, validate(k, a.candidate))
  }

  /** `attempts` is a run of the loop: attempt 1 has no feedback, every
      rejected attempt hands its feedback to the next one, and only the
      last attempt may have been accepted. */
  predicate Chained(attempts: seq<Attempt>, analysisContent: string, videoId: string,
                    generate: (nat, BlueskyPrompt) -> Result<string, string>, validate: (nat, string) -> Option<string>)
  {
    attempts == []
    || var earlier := attempts[..|attempts| - 1];
       Chained(earlier, analysisContent, videoId, generate, validate)
       && (earlier == [] || !earlier[|earlier| - 1].verdict.meets)
       && IsAttempt(attempts[|attempts| - 1], |attempts|, NextPrompt(earlier, analysisContent, videoId), generate, validate)
  }

  /** A run followed by the attempt made from its next prompt is a run. */
  lemma ChainedSnoc(attempts: seq<Attempt>, a: Attempt, analysisContent: string, videoId: string,
                    generate: (nat, BlueskyPrompt) -> Result<string, string>, validate: (nat, string) -> Option<string>)
    requires Chained(attempts, analysisContent, videoId, generate, validate)
    requires attempts == [] || !attempts[|attempts| - 1].verdict.meets
    requires IsAttempt(a, |attempts| + 1, NextPrompt(attempts, analysisContent, videoId), generate, validate)
    ensures Chained(attempts + [a], analysisContent, videoId, generate, validate)
  {
    assert (attempts + [a])[..|attempts|] == attempts;
  }

  /** The prompt the attempt after `attempts` is made from. */
  function NextPrompt(attempts: seq<Attempt>, analysisContent: string, videoId: string): BlueskyPrompt
  {
    CreateBlueskyPrompt(analysisContent, videoId, if attempts == [] then "" else attempts[|attempts| - 1].verdict.feedback)
  }

  /** One generate/validate cycle: `Failure` carries the generator's error. */
  method Cycle(iteration: nat, prompt: BlueskyPrompt,
               generate: (nat, BlueskyPrompt) -> Result<string, string>, validate: (nat, string) -> Option<string>)
    returns (r: Result<Attempt, string>)
    ensures r.Failure? <==> generate(iteration, prompt).Failure?
    ensures r.Failure? ==> r.error == generate(iteration, prompt).error
    ensures r.Success? ==> IsAttempt(r.value, iteration, prompt, generate, validate)
  {
    var answer := generate(iteration, prompt);
    if answer.Failure? {
      return Failure(answer.error);
    }
    var candidate := Strip(answer.value);
    var verdict := ValidateBlueskyPost(candidate, validate(iteration, candidate));
    r := Success(Attempt(prompt, candidate, verdict));
  }

  /** What the loop's result says about the attempts made: an accepted last
      candidate is returned as it is, five rejections return the fifth
      candidate force-fitted, and a failure names the generator error of the
      attempt after the rejected ones. */
  ghost predicate Generated(r: Result<string, string>, attempts: seq<Attempt>, analysisContent: string, videoId: string,
                            generate: (nat, BlueskyPrompt) -> Result<string, string>)
  {
    (r.Success? ==>
      attempts != [] &&
      var last := attempts[|attempts| - 1];
      (last.verdict.meets ==> r.value == last.candidate)
      && (!last.verdict.meets ==> |attempts| == MaxIterations && r.value == ForceFit(last.candidate)))
    && (r.Failure? ==>
      |attempts| < MaxIterations
      && (attempts == [] || !attempts[|attempts| - 1].verdict.meets)
      && var failed := generate(|attempts| + 1, NextPrompt(attempts, analysisContent, videoId));
         failed.Failure? && r == Failure(GenerationError(videoId, failed.error)))
  }

  /** One round of the loop after `attempts` were all rejected: `None` when
      the round's candidate was rejected and another round follows,
      otherwise the call's result. */
  method Round(iteration: nat, attempts: seq<Attempt>, analysisContent: string, videoId: string,
               generate: (nat, BlueskyPrompt) -> Result<string, string>, validate: (nat, string) -> Option<string>)
    returns (outcome: Option<Result<string, string>>, next: seq<Attempt>)
    requires 1 <= iteration <= MaxIterations && |attempts| == iteration - 1
    requires Chained(attempts, analysisContent, videoId, generate, validate)
    requires attempts == [] || !attempts[|attempts| - 1].verdict.meets
    ensures Chained(next, analysisContent, videoId, generate, validate) && |next| <= MaxIterations
    ensures outcome.None? ==>
      iteration < MaxIterations && |next| == iteration && !next[|next| - 1].verdict.meets
    ensures outcome.Some? ==> Generated(outcome.value, next, analysisContent, videoId, generate)
  {
    var prompt := NextPrompt(attempts, analysisContent, videoId);
    var cycle := Cycle(iteration, prompt, generate, validate);
    if cycle.Failure? {
      return Some(Failure(GenerationError(videoId, cycle.error))), attempts;
    }
    var attempt := cycle.value;
    ChainedSnoc(attempts, attempt, analysisContent, videoId, generate, validate);
    next := attempts + [attempt];
    if attempt.verdict.meets {
      outcome := Some(Success(attempt.candidate));
    } else if iteration == MaxIterations {
      outcome := Some(Success(ForceFit(attempt.candidate)));
    } else {
      outcome := None;
    }
  }

  /** `generate_bluesky_post`. `generate(k, p)` is the k-th chat answer to
      prompt `p` (`Failure` when the call raised); `validate(k, c)` the k-th
      validator reply on candidate `c`. At most five cycles run; the first
      accepted candidate is returned as generated; after five rejections the
      last candidate is returned, cut to 290 characters. Empty analysis, or
      a failed generation at any attempt, fails the whole call. */
  method GenerateBlueskyPost(videoId: string, analysisContent: string,
                             generate: (nat, BlueskyPrompt) -> Result<string, string>,
                             validate: (nat, string) -> Option<string>)
    returns (r: Result<string, string>, attempts: seq<Attempt>)
    ensures Strip(analysisContent) == [] ==>
      attempts == [] && r == Failure(GenerationError(videoId, "Analysis content is empty"))
    ensures |attempts| <= MaxIterations
    ensures Chained(attempts, analysisContent, videoId, generate, validate)
    ensures Strip(analysisContent) != [] ==> Generated(r, attempts, analysisContent, videoId, generate)
  {
    attempts := [];
    if Strip(analysisContent) == [] {
      return Failure(GenerationError(videoId, "Analysis content is empty")), attempts;
    }
    var iteration: nat := 1;
    while iteration <= MaxIterations
      invariant 1 <= iteration <= MaxIterations
      invariant |attempts| == iteration - 1
      invariant Chained(attempts, analysisContent, videoId, generate, validate)
      invariant attempts == [] || !attempts[|attempts| - 1].verdict.meets
      decreases MaxIterations + 1 - iteration
    {
      var outcome, next := Round(iteration, attempts, analysisContent, videoId, generate, validate);
      if outcome.Some? {
        return outcome.value, next;
      }
      attempts := next;
      iteration := iteration + 1;
    }
    assert false;
  }

  /** The name and content of an output file of the analysis service. */
  datatype OutputFile = OutputFile(path: string, content: string)

  /** The stem the outputs are named after: the video id when it is given
      and not empty, otherwise the transcription file's name without its
      extension. */
  function OutputBase(transcriptionFile: string, videoId: Option<string>): string
  {
    if videoId.Some? && videoId.value != "" then videoId.value
    else Paths.SplitExt(Paths.Basename(transcriptionFile)).0
  }

  /** The path `analyze_transcription` writes: beside the transcription. */
  function AnalysisFilePath(transcriptionFile: string, videoId: Option<string>): string
  {
    Paths.JoinPath(Paths.Dirname(transcriptionFile), OutputBase(transcriptionFile, videoId) + "-analysis.txt")
  }

  /** The path `generate_linkedin_post` writes. */
  function LinkedinPostFilePath(transcriptionFile: string, videoId: Option<string>): string
  {
    Paths.JoinPath(Paths.Dirname(transcriptionFile), OutputBase(transcriptionFile, videoId) + "-linkedin-post.txt")
  }

  /** The outputs lie in the transcription's directory and are named after
      the video id. */
  lemma OutputPathsBesideTranscription(transcriptionFile: string, videoId: string)
    requires videoId != "" && Paths.NoSlash(videoId)
    requires Paths.Dirname(transcriptionFile) != "" && !EndsWith(Paths.Dirname(transcriptionFile), "/")
    ensures Paths.Dirname(AnalysisFilePath(transcriptionFile, Some(videoId))) == Paths.Dirname(transcriptionFile)
    ensures Paths.Basename(AnalysisFilePath(transcriptionFile, Some(videoId))) == videoId + "-analysis.txt"
    ensures Paths.Dirname(LinkedinPostFilePath(transcriptionFile, Some(videoId))) == Paths.Dirname(transcriptionFile)
    ensures Paths.Basename(LinkedinPostFilePath(transcriptionFile, Some(videoId))) == videoId + "-linkedin-post.txt"
  {
    var d := Paths.Dirname(transcriptionFile);
    Paths.NoSlashAppend(videoId, "-analysis.txt");
    Paths.NoSlashAppend(videoId, "-linkedin-post.txt");
    Paths.DirnameBasenameOfJoin(d, videoId + "-analysis.txt");
    Paths.DirnameBasenameOfJoin(d, videoId + "-linkedin-post.txt");
  }

  /** The text written before the model's answer in the analysis file;
      `now` is the event loop's clock reading, rendered. */
  function AnalysisHeader(transcriptionFile: string, videoId: Option<string>, modelName: string, now: string): string
  {
    "# Video Analysis Report\n"
    + "**Video ID:** " + (if videoId.Some? && videoId.value != "" then videoId.value else "Unknown") + "\n"
    + "**Transcription File:** " + Paths.Basename(transcriptionFile) + "\n"
    + "**Analysis Generated:** " + now + "\n"
    + "**Model Used:** " + modelName + "\n\n"
    + "---\n\n"
  }

  function LinkedinHeader(transcriptionFile: string, videoId: Option<string>, modelName: string): string
  {
    "# LinkedIn Post - " + (if videoId.Some? && videoId.value != "" then videoId.value else "Unknown") + "\n"
    + "**Generated from:** " + Paths.Basename(transcriptionFile) + "\n"
    + "**Model Used:** " + modelName + "\n\n"
    + "---\n\n"
  }

  /** The checks both file-producing operations make before the chat call:
      the transcription must exist and must not be blank. */
  function ReadTranscription(transcriptionFile: string, files: map<string, string>): (r: Result<string, string>)
    ensures r.Success? <==> transcriptionFile in files && Strip(files[transcriptionFile]) != []
    ensures r.Success? ==> r.value == files[transcriptionFile]
  {
    if transcriptionFile !in files then Failure("Transcription file not found: " + transcriptionFile)
    else if Strip(files[transcriptionFile]) == [] then Failure("Transcription file is empty")
    else Success(files[transcriptionFile])
  }

  /** `analyze_transcription`: `files` are the local text files, `chat` the
      model's answer to the analysis prompt for the transcription text. */
  function AnalyzeTranscription(transcriptionFile: string, videoId: Option<string>, files: map<string, string>,
                                chat: string -> Result<string, string>, modelName: string, now: string)
    : (r: Result<OutputFile, string>)
    ensures r.Success? <==>
      ReadTranscription(transcriptionFile, files).Success? && chat(files[transcriptionFile]).Success?
    ensures r.Success? ==>
      r.value.path == AnalysisFilePath(transcriptionFile, videoId)
      && EndsWith(r.value.content, chat(files[transcriptionFile]).value)
      && r.value.content == AnalysisHeader(transcriptionFile, videoId, modelName, now) + chat(files[transcriptionFile]).value
    ensures r.Failure? ==> StartsWith(r.error, "Failed to analyze transcription " + transcriptionFile + ": ")
  {
    var prefix := "Failed to analyze transcription " + transcriptionFile + ": ";
    match ReadTranscription(transcriptionFile, files)
    case Failure(e) => Failure(prefix + e)
    case Success(text) =>
      match chat(text)
      case Failure(e) => Failure(prefix + e)
      case Success(answer) =>
        var header := AnalysisHeader(transcriptionFile, videoId, modelName, now);
        assert (header + answer)[|header|..] == answer;
        Success(OutputFile(AnalysisFilePath(transcriptionFile, videoId), header + answer))
  }

  /** `generate_linkedin_post`. */
  function GenerateLinkedinPost(transcriptionFile: string, videoId: Option<string>, files: map<string, string>,
                                chat: string -> Result<string, string>, modelName: string)
    : (r: Result<OutputFile, string>)
    ensures r.Success? <==>
      ReadTranscription(transcriptionFile, files).Success? && chat(files[transcriptionFile]).Success?
    ensures r.Success? ==>
      r.value.path == LinkedinPostFilePath(transcriptionFile, videoId)
      && EndsWith(r.value.content, chat(files[transcriptionFile]).value)
      && r.value.content == LinkedinHeader(transcriptionFile, videoId, modelName) + chat(files[transcriptionFile]).value
    ensures r.Failure? ==> StartsWith(r.error, "Failed to generate LinkedIn post for " + transcriptionFile + ": ")
  {
    var prefix := "Failed to generate LinkedIn post for " + transcriptionFile + ": ";
    match ReadTranscription(transcriptionFile, files)
    case Failure(e) => Failure(prefix + e)
    case Success(text) =>
      match chat(text)
      case Failure(e) => Failure(prefix + e)
      case Success(answer) =>
        var header := LinkedinHeader(transcriptionFile, videoId, modelName);
        assert (header + answer)[|header|..] == answer;
        Success(OutputFile(LinkedinPostFilePath(transcriptionFile, videoId), header + answer))
  }
}
