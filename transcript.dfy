/** Speaker-labelled transcripts, as both the persona transcription service
    (`services/transcription_service.py`) and the diarization script
    (`test_persona_gemini.py`) shape and lay them out. Times are floats in the
    source; here they are kept as their already rendered text. */
module Transcript {
  import opened Wrappers
  import opened Text

  /** A segment as speaker assignment returns it: the speaker key may be missing. */
  datatype RawSegment = RawSegment(speaker: Option<string>, start: string, end: string, text: string)

  /** A segment of the final output. */
  datatype Segment = Segment(speaker: string, start: string, end: string, text: string)

  const Unknown := "UNKNOWN"

  /** One entry of the final output: the speaker defaults to "UNKNOWN" and the
      text is stripped. */
  function Finalize(raw: RawSegment): (s: Segment)
    ensures s.speaker == if raw.speaker.Some? then raw.speaker.value else Unknown
    ensures s.start == raw.start && s.end == raw.end
  {
    Segment(raw.speaker.GetOr(Unknown), raw.start, raw.end, Strip(raw.text))
  }

  /** A final segment's text has nothing left to strip, and it is empty
      exactly when the assigned text is all whitespace. */
  lemma FinalTextStripped(raw: RawSegment)
    ensures Strip(Finalize(raw).text) == Finalize(raw).text
    ensures Finalize(raw).text == [] <==> forall k :: 0 <= k < |raw.text| ==> IsSpace(raw.text[k])
  {
    StripIdempotent(raw.text);
    StripEmptyIff(raw.text);
  }

  /** The final-output loop: one entry per assigned segment, in order. */
  method FinalizeAll(raw: seq<RawSegment>) returns (out: seq<Segment>)
    ensures |out| == |raw|
    ensures forall k :: 0 <= k < |raw| ==> out[k] == Finalize(raw[k])
  {
    out := [];
    for i := 0 to |raw|
      invariant |out| == i
      invariant forall k :: 0 <= k < i ==> out[k] == Finalize(raw[k])
    {
      out := out + [Finalize(raw[i])];
    }
  }

  // ---------------------------------------------------------------------
  // Speakers

  /** Python's `a < b` on strings: code point by code point, a proper prefix first. */
  predicate Before(a: string, b: string)
  {
    if a == [] then b != []
    else b != [] && (a[0] < b[0] || (a[0] == b[0] && Before(a[1..], b[1..])))
  }

  lemma {:induction false} BeforeIrreflexive(a: string)
    ensures !Before(a, a)
  {
    if a != [] {
      BeforeIrreflexive(a[1..]);
    }
  }

  lemma {:induction false} BeforeTotal(a: string, b: string)
    requires a != b
    ensures Before(a, b) || Before(b, a)
  {
    if a != [] && b != [] && a[0] == b[0] {
      assert a == [a[0]] + a[1..] && b == [b[0]] + b[1..];
      BeforeTotal(a[1..], b[1..]);
    }
  }

  lemma {:induction false} BeforeTransitive(a: string, b: string, c: string)
    requires Before(a, b) && Before(b, c)
    ensures Before(a, c)
  {
    if a != [] && a[0] == b[0] && b[0] == c[0] {
      BeforeTransitive(a[1..], b[1..], c[1..]);
    }
  }

  /** Each element comes before the next. */
  predicate Sorted(s: seq<string>)
  {
    forall k :: 0 < k < |s| ==> Before(s[k - 1], s[k])
  }

  predicate Distinct(s: seq<string>)
  {
    forall i, j :: 0 <= i < j < |s| ==> s[i] != s[j]
  }

  /** A sorted sequence is ordered pairwise, so it has no duplicates. */
  lemma {:induction false} SortedPairwise(s: seq<string>)
    requires Sorted(s)
    ensures forall i, j :: 0 <= i < j < |s| ==> Before(s[i], s[j])
    ensures Distinct(s)
  {
    if |s| > 1 {
      var t := s[..|s| - 1];
      assert Sorted(t);
      SortedPairwise(t);
      forall i | 0 <= i < |s| - 1
        ensures Before(s[i], s[|s| - 1])
      {
        if i < |s| - 2 {
          BeforeTransitive(s[i], s[|s| - 2], s[|s| - 1]);
        }
      }
      forall i, j | 0 <= i < j < |s|
        ensures s[i] != s[j]
      {
        if j < |s| - 1 {
          assert t[i] == s[i] && t[j] == s[j];
        } else {
          BeforeIrreflexive(s[i]);
        }
      }
    }
  }

  /** Inserting a new string into a sorted sequence. */
  function Insert(x: string, s: seq<string>): (r: seq<string>)
    requires Sorted(s) && x !in s
    ensures Sorted(r) && |r| == |s| + 1
    ensures forall y :: y in r <==> y == x || y in s
    ensures r[0] == x || r[0] == s[0]
  {
    if s == [] then [x]
    else if Before(x, s[0]) then [x] + s
    else
      var t := Insert(x, s[1..]);
      BeforeTotal(x, s[0]);
      assert s == [s[0]] + s[1..];
      [s[0]] + t
  }

  /** `sorted` of a sequence without duplicates. */
  function SortDistinct(xs: seq<string>): (r: seq<string>)
    requires Distinct(xs)
    ensures Sorted(r) && |r| == |xs|
    ensures forall y :: y in r <==> y in xs
    decreases |xs|
  {
    if xs == [] then []
    else
      var init := xs[..|xs| - 1];
      var x := xs[|xs| - 1];
      assert Distinct(init);
      var rest := SortDistinct(init);
      assert x !in init;
      assert xs == init + [x];
      Insert(x, rest)
  }

  /** The speakers of `segs` in order of first appearance. */
  function Speakers(segs: seq<Segment>): (r: seq<string>)
    ensures Distinct(r)
    ensures forall sp :: sp in r <==> exists k :: 0 <= k < |segs| && segs[k].speaker == sp
    decreases |segs|
  {
    if segs == [] then []
    else
      var init := segs[..|segs| - 1];
      var rest := Speakers(init);
      var x := segs[|segs| - 1].speaker;
      assert forall k :: 0 <= k < |init| ==> init[k] == segs[k];
      if x in rest then rest else rest + [x]
  }

  /** The elements of `xs` other than "UNKNOWN", in order. */
  function Named(xs: seq<string>): (r: seq<string>)
    ensures forall y :: y in r <==> y in xs && y != Unknown
    ensures Distinct(xs) ==> Distinct(r)
  {
    if xs == [] then []
    else
      var rest := Named(xs[1..]);
      assert Distinct(xs) ==> Distinct(xs[1..]) && xs[0] !in xs[1..];
      if xs[0] == Unknown then rest else [xs[0]] + rest
  }

  /** `set(seg["speaker"] for seg in segs if seg["speaker"] != "UNKNOWN")`. */
  function SpeakerSet(segs: seq<Segment>): set<string>
  {
    set k | 0 <= k < |segs| && segs[k].speaker != Unknown :: segs[k].speaker
  }

  /** `sorted(unique_speakers)` of the persona header. */
  function HeaderSpeakers(segs: seq<Segment>): (r: seq<string>)
  {
    SortDistinct(Named(Speakers(segs)))
  }

  /** The header lists each speaker other than "UNKNOWN" exactly once, in
      sorted order, and nothing else. */
  lemma HeaderListsSpeakerSet(segs: seq<Segment>)
    ensures Sorted(HeaderSpeakers(segs)) && Distinct(HeaderSpeakers(segs))
    ensures forall sp :: sp in HeaderSpeakers(segs) <==> sp in SpeakerSet(segs)
  {
    SortedPairwise(HeaderSpeakers(segs));
    forall sp | sp in SpeakerSet(segs)
      ensures sp in HeaderSpeakers(segs)
    {
      var k :| 0 <= k < |segs| && segs[k].speaker != Unknown && segs[k].speaker == sp;
    }
  }

  /** The speakers-found loop of speaker assignment: present, not empty and
      not "UNKNOWN". */
  method FoundSpeakers(raw: seq<RawSegment>) returns (found: set<string>)
    ensures forall sp :: sp in found <==>
      sp != "" && sp != Unknown && exists k :: 0 <= k < |raw| && raw[k].speaker == Some(sp)
  {
    found := {};
    for i := 0 to |raw|
      invariant forall sp :: sp in found <==>
        sp != "" && sp != Unknown && exists k :: 0 <= k < i && raw[k].speaker == Some(sp)
    {
      var speaker := raw[i].speaker;
      if speaker.Some? && speaker.value != "" && speaker.value != Unknown {
        found := found + {speaker.value};
      }
    }
  }

  /** The speakers that are logged as found are those of the header, except
      an empty label, which only the header keeps. */
  lemma FoundSpeakersAreHeaderSpeakers(raw: seq<RawSegment>, out: seq<Segment>, sp: string)
    requires |out| == |raw| && forall k :: 0 <= k < |raw| ==> out[k] == Finalize(raw[k])
    ensures (sp != "" && sp != Unknown && exists k :: 0 <= k < |raw| && raw[k].speaker == Some(sp))
        <==> sp != "" && sp in SpeakerSet(out)
  {
    if sp != "" && sp in SpeakerSet(out) {
      var k :| 0 <= k < |out| && out[k].speaker != Unknown && out[k].speaker == sp;
      assert raw[k].speaker == Some(sp);
    }
    if sp != "" && sp != Unknown && exists k :: 0 <= k < |raw| && raw[k].speaker == Some(sp) {
      var k :| 0 <= k < |raw| && raw[k].speaker == Some(sp);
      assert out[k].speaker == sp;
    }
  }

  // ---------------------------------------------------------------------
  // Grouped layout

  /** A maximal stretch of consecutive segments of one speaker. */
  datatype Run = Run(speaker: string, segments: seq<Segment>)

  /** The runs after meeting segment `x`: it joins the last run when it has
      that run's speaker, and starts a new one otherwise. */
  function Extend(rs: seq<Run>, x: Segment): seq<Run>
  {
    if rs != [] && rs[|rs| - 1].speaker == x.speaker then
      rs[..|rs| - 1] + [Run(x.speaker, rs[|rs| - 1].segments + [x])]
    else
      rs + [Run(x.speaker, [x])]
  }

  /** The runs of `segs`, built left to right as the writer meets them. */
  function Runs(segs: seq<Segment>): seq<Run>
    decreases |segs|
  {
    if segs == [] then [] else Extend(Runs(segs[..|segs| - 1]), segs[|segs| - 1])
  }

  lemma RunsSnoc(s: seq<Segment>, x: Segment)
    ensures Runs(s + [x]) == Extend(Runs(s), x)
  {
    assert (s + [x])[..|s|] == s;
  }

  function Flatten(rs: seq<Run>): seq<Segment>
  {
    if rs == [] then [] else Flatten(rs[..|rs| - 1]) + rs[|rs| - 1].segments
  }

  lemma FlattenSnoc(rs: seq<Run>, r: Run)
    ensures Flatten(rs + [r]) == Flatten(rs) + r.segments
  {
    assert (rs + [r])[..|rs|] == rs;
  }

  predicate WellFormedRun(r: Run)
  {
    r.segments != [] && forall k :: 0 <= k < |r.segments| ==> r.segments[k].speaker == r.speaker
  }

  /** Non-empty one-speaker runs, neighbours of different speakers. */
  predicate Maximal(rs: seq<Run>)
  {
    (forall j :: 0 <= j < |rs| ==> WellFormedRun(rs[j]))
    && forall j :: 0 < j < |rs| ==> rs[j - 1].speaker != rs[j].speaker
  }

  /** A prefix of maximal runs is maximal. */
  lemma MaximalPrefix(rs: seq<Run>, n: nat)
    requires Maximal(rs) && n <= |rs|
    ensures Maximal(rs[..n])
  {
    assert forall j :: 0 <= j < n ==> rs[..n][j] == rs[j];
  }

  /** Meeting a segment keeps the runs maximal and flattening to what was met. */
  lemma {:induction false} ExtendKeepsPartition(rs: seq<Run>, x: Segment)
    requires Maximal(rs)
    ensures Maximal(Extend(rs, x)) && Flatten(Extend(rs, x)) == Flatten(rs) + [x]
    ensures Extend(rs, x)[|Extend(rs, x)| - 1].speaker == x.speaker
  {
    var e := Extend(rs, x);
    if rs != [] && rs[|rs| - 1].speaker == x.speaker {
      var init := rs[..|rs| - 1];
      var last := rs[|rs| - 1];
      var r := Run(x.speaker, last.segments + [x]);
      assert e == init + [r];
      assert rs == init + [last];
      FlattenSnoc(init, last);
      FlattenSnoc(init, r);
      assert WellFormedRun(last);
      assert WellFormedRun(r);
      forall j | 0 <= j < |e| ensures WellFormedRun(e[j]) {
        if j < |e| - 1 {
          assert e[j] == rs[j];
        }
      }
      forall j | 0 < j < |e| ensures e[j - 1].speaker != e[j].speaker {
        assert e[j - 1] == rs[j - 1];
        assert e[j].speaker == rs[j].speaker;
      }
    } else {
      var r := Run(x.speaker, [x]);
      assert e == rs + [r];
      FlattenSnoc(rs, r);
      forall j | 0 <= j < |e| ensures WellFormedRun(e[j]) {
        if j < |e| - 1 {
          assert e[j] == rs[j];
        }
      }
    }
  }

  /** The runs partition the segments into maximal one-speaker stretches. */
  lemma {:induction false} RunsPartition(segs: seq<Segment>)
    ensures Flatten(Runs(segs)) == segs && Maximal(Runs(segs))
    ensures Runs(segs) == [] <==> segs == []
    ensures segs != [] ==> Runs(segs)[|Runs(segs)| - 1].speaker == segs[|segs| - 1].speaker
    decreases |segs|
  {
    if segs != [] {
      var init := segs[..|segs| - 1];
      RunsPartition(init);
      ExtendKeepsPartition(Runs(init), segs[|segs| - 1]);
      assert segs == init + [segs[|segs| - 1]];
    }
  }

  /** Appending a one-speaker block after a run of someone else adds one run. */
  lemma {:induction false} RunsAppendBlock(a: seq<Segment>, r: Run)
    requires WellFormedRun(r)
    requires Runs(a) == [] || Runs(a)[|Runs(a)| - 1].speaker != r.speaker
    ensures Runs(a + r.segments) == Runs(a) + [r]
    decreases |r.segments|
  {
    var b := r.segments;
    var x := b[|b| - 1];
    var init := b[..|b| - 1];
    assert x.speaker == r.speaker && b == init + [x];
    assert Runs(a + b) == Extend(Runs(a + init), x) by {
      assert a + b == (a + init) + [x];
      RunsSnoc(a + init, x);
    }
    if init == [] {
      assert Runs(a + init) == Runs(a) by {
        assert a + init == a;
      }
      ExtendNewRun(Runs(a), x);
    } else {
      var r' := Run(r.speaker, init);
      assert Runs(a + init) == Runs(a) + [r'] by {
        assert WellFormedRun(r');
        RunsAppendBlock(a, r');
      }
      ExtendLastRun(Runs(a), r', x);
    }
  }

  /** A segment of the last run's speaker joins that run. */
  lemma ExtendLastRun(rs: seq<Run>, r: Run, x: Segment)
    requires r.speaker == x.speaker
    ensures Extend(rs + [r], x) == rs + [Run(r.speaker, r.segments + [x])]
  {
    assert (rs + [r])[..|rs|] == rs;
  }

  /** A segment of a new speaker opens a run. */
  lemma ExtendNewRun(rs: seq<Run>, x: Segment)
    requires rs == [] || rs[|rs| - 1].speaker != x.speaker
    ensures Extend(rs, x) == rs + [Run(x.speaker, [x])]
  {
  }

  /** Runs are unique: maximal runs are exactly the runs of what they flatten to. */
  lemma {:induction false} RunsUnique(rs: seq<Run>)
    requires Maximal(rs)
    ensures Runs(Flatten(rs)) == rs
  {
    if rs != [] {
      var init := rs[..|rs| - 1];
      var last := rs[|rs| - 1];
      MaximalPrefix(rs, |rs| - 1);
      RunsUnique(init);
      if init != [] {
        assert init[|init| - 1] == rs[|rs| - 2];
      }
      RunsAppendBlock(Flatten(init), last);
      assert init + [last] == rs;
    }
  }

  /** A line the layout writes: the blank separator, a `--- S ---` header, or
      a segment's timestamp line. */
  datatype Line = Blank | Header(speaker: string) | Stamp(segment: Segment)

  function Stamps(segs: seq<Segment>): (ls: seq<Line>)
    ensures |ls| == |segs| && forall k :: 0 <= k < |segs| ==> ls[k] == Stamp(segs[k])
  {
    seq(|segs|, k requires 0 <= k < |segs| => Stamp(segs[k]))
  }

  /** The lines of one run: a blank line unless it is the first, its header,
      and its segments' lines. */
  function RunLines(r: Run, first: bool): seq<Line>
  {
    (if first then [] else [Blank]) + [Header(r.speaker)] + Stamps(r.segments)
  }

  /** The layout of a sequence of runs. */
  function RenderRuns(rs: seq<Run>): seq<Line>
  {
    if rs == [] then [] else RenderRuns(rs[..|rs| - 1]) + RunLines(rs[|rs| - 1], |rs| == 1)
  }

  lemma RenderRunsSnoc(rs: seq<Run>, r: Run)
    ensures RenderRuns(rs + [r]) == RenderRuns(rs) + RunLines(r, rs == [])
  {
    assert (rs + [r])[..|rs|] == rs;
  }

  /** Meeting a segment of the current speaker adds its line; meeting
      another speaker's adds a run's lines. */
  lemma {:induction false} RenderExtend(rs: seq<Run>, x: Segment)
    ensures rs != [] && rs[|rs| - 1].speaker == x.speaker ==>
      RenderRuns(Extend(rs, x)) == RenderRuns(rs) + [Stamp(x)]
    ensures !(rs != [] && rs[|rs| - 1].speaker == x.speaker) ==>
      RenderRuns(Extend(rs, x)) == RenderRuns(rs) + (if rs == [] then [] else [Blank]) + [Header(x.speaker)] + [Stamp(x)]
  {
    if rs != [] && rs[|rs| - 1].speaker == x.speaker {
      var init := rs[..|rs| - 1];
      var last := rs[|rs| - 1];
      assert rs == init + [last];
      RenderRunsSnoc(init, last);
      RenderRunsSnoc(init, Run(x.speaker, last.segments + [x]));
      assert Stamps(last.segments + [x]) == Stamps(last.segments) + [Stamp(x)];
    } else {
      RenderRunsSnoc(rs, Run(x.speaker, [x]));
    }
  }

  /** The layout grows by a timestamp line for a segment of the previous
      speaker, and by a header (after a blank line unless it is the first)
      and the line for a new speaker. */
  lemma LayoutStep(done: seq<Segment>, x: Segment)
    ensures done == [] ==> RenderRuns(Runs(done + [x])) == [Header(x.speaker), Stamp(x)]
    ensures done != [] && done[|done| - 1].speaker == x.speaker ==>
      RenderRuns(Runs(done + [x])) == RenderRuns(Runs(done)) + [Stamp(x)]
    ensures done != [] && done[|done| - 1].speaker != x.speaker ==>
      RenderRuns(Runs(done + [x])) == RenderRuns(Runs(done)) + [Blank] + [Header(x.speaker)] + [Stamp(x)]
  {
    RunsPartition(done);
    RunsSnoc(done, x);
    RenderExtend(Runs(done), x);
  }

  /** The segment-writing loop of `save_transcription` and of the persona
      `transcribe_file`, which remembers the current speaker. */
  method LayoutSegments(segs: seq<Segment>) returns (lines: seq<Line>)
    ensures lines == RenderRuns(Runs(segs))
  {
    lines := [];
    var current: Option<string> := None;
    for i := 0 to |segs|
      invariant lines == RenderRuns(Runs(segs[..i]))
      invariant current == if i == 0 then None else Some(segs[i - 1].speaker)
    {
      var s := segs[i];
      assert segs[..i + 1] == segs[..i] + [s];
      assert i > 0 ==> segs[..i][i - 1] == segs[i - 1];
      LayoutStep(segs[..i], s);
      if Some(s.speaker) != current {
        if current.Some? {
          lines := lines + [Blank];
        }
        lines := lines + [Header(s.speaker)];
        current := Some(s.speaker);
      }
      lines := lines + [Stamp(s)];
    }
    assert segs[..|segs|] == segs;
  }

  /** The timestamp lines of a layout, in order. */
  function StampedSegments(lines: seq<Line>): seq<Segment>
  {
    if lines == [] then []
    else StampedSegments(lines[..|lines| - 1]) + (if lines[|lines| - 1].Stamp? then [lines[|lines| - 1].segment] else [])
  }

  lemma {:induction false} StampedSegmentsAppend(a: seq<Line>, b: seq<Line>)
    ensures StampedSegments(a + b) == StampedSegments(a) + StampedSegments(b)
    decreases |b|
  {
    if b == [] {
      assert a + b == a;
    } else {
      assert (a + b)[..|a + b| - 1] == a + b[..|b| - 1];
      StampedSegmentsAppend(a, b[..|b| - 1]);
    }
  }

  lemma {:induction false} StampedSegmentsOfStamps(segs: seq<Segment>)
    ensures StampedSegments(Stamps(segs)) == segs
    decreases |segs|
  {
    if segs != [] {
      assert Stamps(segs)[..|segs| - 1] == Stamps(segs[..|segs| - 1]);
      StampedSegmentsOfStamps(segs[..|segs| - 1]);
    }
  }

  lemma {:induction false} NoStampsNoSegments(ls: seq<Line>)
    requires forall k :: 0 <= k < |ls| ==> !ls[k].Stamp?
    ensures StampedSegments(ls) == []
  {
    if ls != [] {
      NoStampsNoSegments(ls[..|ls| - 1]);
    }
  }

  /** Exactly one timestamp line per segment, in input order. */
  lemma {:induction false} OneStampPerSegment(rs: seq<Run>)
    ensures StampedSegments(RenderRuns(rs)) == Flatten(rs)
  {
    if rs != [] {
      var init := rs[..|rs| - 1];
      var last := rs[|rs| - 1];
      OneStampPerSegment(init);
      assert RenderRuns(rs) == RenderRuns(init) + RunLines(last, |rs| == 1);
      RunLinesStamps(last, |rs| == 1);
      StampedSegmentsAppend(RenderRuns(init), RunLines(last, |rs| == 1));
      assert rs == init + [last];
      FlattenSnoc(init, last);
    }
  }

  /** The timestamp lines of one run's lines are its segments. */
  lemma RunLinesStamps(r: Run, first: bool)
    ensures StampedSegments(RunLines(r, first)) == r.segments
  {
    var head: seq<Line> := (if first then [] else [Blank]) + [Header(r.speaker)];
    assert RunLines(r, first) == head + Stamps(r.segments);
    NoStampsNoSegments(head);
    StampedSegmentsAppend(head, Stamps(r.segments));
    StampedSegmentsOfStamps(r.segments);
  }

  /** The separators and headers sit where the source puts them: the first
      line is a header, every later header follows a blank line which
      follows a timestamp line of a different speaker, every blank line is
      followed by a header, and a timestamp line follows a header of its
      own speaker or a timestamp line of the same speaker. */
  ghost predicate HeadersAtChanges(lines: seq<Line>)
  {
    (lines != [] ==> lines[0].Header? && lines[|lines| - 1].Stamp?)
    && (forall k :: 0 < k < |lines| && lines[k].Header? ==>
          k >= 2 && lines[k - 1] == Blank && lines[k - 2].Stamp? && lines[k - 2].segment.speaker != lines[k].speaker)
    && (forall k :: 0 <= k < |lines| && lines[k] == Blank ==> k + 1 < |lines| && lines[k + 1].Header?)
    && (forall k :: 0 <= k < |lines| && lines[k].Stamp? ==>
          k > 0 && (lines[k - 1] == Header(lines[k].segment.speaker)
                    || (lines[k - 1].Stamp? && lines[k - 1].segment.speaker == lines[k].segment.speaker)))
  }

  /** `l` is `a` followed by a separator (unless `a` is empty), the header
      of `sp` and timestamp lines `S` of `sp`, where `a` keeps the headers at
      changes and does not end with `sp`. */
  ghost predicate Joins(l: seq<Line>, a: seq<Line>, sp: string, S: seq<Line>)
  {
    && HeadersAtChanges(a)
    && (a != [] ==> a[|a| - 1].segment.speaker != sp)
    && S != [] && (forall k :: 0 <= k < |S| ==> S[k].Stamp? && S[k].segment.speaker == sp)
    && l == a + ((if a == [] then [] else [Blank]) + [Header(sp)] + S)
  }

  /** Where the parts of a joined layout sit. */
  lemma JoinsAt(l: seq<Line>, a: seq<Line>, sp: string, S: seq<Line>)
    requires Joins(l, a, sp, S)
    ensures var h := if a == [] then 0 else |a| + 1;
      && |l| == h + 1 + |S| && l[h] == Header(sp)
      && (a != [] ==> l[|a|] == Blank)
      && (forall k :: 0 <= k < |a| ==> l[k] == a[k])
      && (forall k :: h < k < |l| ==> l[k] == S[k - h - 1])
  {
  }

  lemma JoinsStamps(l: seq<Line>, a: seq<Line>, sp: string, S: seq<Line>)
    requires Joins(l, a, sp, S)
    ensures forall k :: 0 <= k < |l| && l[k].Stamp? ==>
          k > 0 && (l[k - 1] == Header(l[k].segment.speaker)
                    || (l[k - 1].Stamp? && l[k - 1].segment.speaker == l[k].segment.speaker))
  {
    JoinsAt(l, a, sp, S);
    var h := if a == [] then 0 else |a| + 1;
    forall k | 0 <= k < |l| && l[k].Stamp?
      ensures k > 0 && (l[k - 1] == Header(l[k].segment.speaker)
                        || (l[k - 1].Stamp? && l[k - 1].segment.speaker == l[k].segment.speaker))
    {
      if k < |a| {
        assert l[k] == a[k] && l[k - 1] == a[k - 1];
      } else if k > h + 1 {
        assert l[k - 1] == S[k - h - 2];
      }
    }
  }

  lemma JoinsBlanks(l: seq<Line>, a: seq<Line>, sp: string, S: seq<Line>)
    requires Joins(l, a, sp, S)
    ensures forall k :: 0 <= k < |l| && l[k] == Blank ==> k + 1 < |l| && l[k + 1].Header?
  {
    JoinsAt(l, a, sp, S);
    forall k | 0 <= k < |l| && l[k] == Blank
      ensures k + 1 < |l| && l[k + 1].Header?
    {
      if k < |a| {
        assert l[k] == a[k];
        assert l[k + 1] == a[k + 1];
      }
    }
  }

  lemma JoinsHeaders(l: seq<Line>, a: seq<Line>, sp: string, S: seq<Line>)
    requires Joins(l, a, sp, S)
    ensures forall k :: 0 < k < |l| && l[k].Header? ==>
          k >= 2 && l[k - 1] == Blank && l[k - 2].Stamp? && l[k - 2].segment.speaker != l[k].speaker
  {
    JoinsAt(l, a, sp, S);
    forall k | 0 < k < |l| && l[k].Header?
      ensures k >= 2 && l[k - 1] == Blank && l[k - 2].Stamp? && l[k - 2].segment.speaker != l[k].speaker
    {
      if k < |a| {
        assert l[k] == a[k] && l[k - 1] == a[k - 1] && l[k - 2] == a[k - 2];
      }
    }
  }

  /** Adding the lines of a run of another speaker keeps the headers at changes. */
  lemma HeadersAtChangesAppend(a: seq<Line>, r: Run)
    requires HeadersAtChanges(a) && WellFormedRun(r)
    requires a != [] ==> a[|a| - 1].segment.speaker != r.speaker
    ensures HeadersAtChanges(a + RunLines(r, a == []))
    ensures (a + RunLines(r, a == []))[|a + RunLines(r, a == [])| - 1] == Stamp(r.segments[|r.segments| - 1])
  {
    var S := Stamps(r.segments);
    var l := a + RunLines(r, a == []);
    assert forall k :: 0 <= k < |S| ==> S[k].Stamp? && S[k].segment.speaker == r.speaker;
    assert Joins(l, a, r.speaker, S);
    JoinsAt(l, a, r.speaker, S);
    JoinsStamps(l, a, r.speaker, S);
    JoinsBlanks(l, a, r.speaker, S);
    JoinsHeaders(l, a, r.speaker, S);
    assert l[0].Header? by {
      if a != [] { assert l[0] == a[0]; }
    }
  }

  lemma {:induction false} RenderRunsHeadersAtChanges(rs: seq<Run>)
    requires Maximal(rs)
    ensures HeadersAtChanges(RenderRuns(rs))
    ensures RenderRuns(rs) == [] <==> rs == []
    ensures rs != [] ==> RenderRuns(rs)[|RenderRuns(rs)| - 1].segment.speaker == rs[|rs| - 1].speaker
  {
    if rs != [] {
      var init := rs[..|rs| - 1];
      var last := rs[|rs| - 1];
      MaximalPrefix(rs, |rs| - 1);
      RenderRunsHeadersAtChanges(init);
      if init != [] {
        assert init[|init| - 1] == rs[|rs| - 2];
      }
      assert WellFormedRun(last);
      HeadersAtChangesAppend(RenderRuns(init), last);
    }
  }

  /** The layout of any segments puts headers exactly at speaker changes and
      a timestamp line for each segment, in order. */
  lemma LayoutProperties(segs: seq<Segment>)
    ensures HeadersAtChanges(RenderRuns(Runs(segs)))
    ensures StampedSegments(RenderRuns(Runs(segs))) == segs
  {
    RunsPartition(segs);
    RenderRunsHeadersAtChanges(Runs(segs));
    OneStampPerSegment(Runs(segs));
  }

  // ---------------------------------------------------------------------
  // Text of the lines

  /** `[{start}s -> {end}s] {text}`, times rendered with two decimals. */
  function TimestampLine(start: string, end: string, text: string): string
  {
    "[" + start + "s -> " + end + "s] " + text
  }

  /** The timestamp line of a final segment. */
  function StampText(s: Segment): string
  {
    TimestampLine(s.start, s.end, s.text)
  }

  /** The written text of one layout line (without its newline). */
  function LineText(l: Line, stamp: Segment -> string): string
  {
    match l
    case Blank => ""
    case Header(sp) => "--- " + sp + " ---"
    case Stamp(s) => stamp(s)
  }

  function LinesText(ls: seq<Line>, stamp: Segment -> string): (ts: seq<string>)
    ensures |ts| == |ls| && forall k :: 0 <= k < |ls| ==> ts[k] == LineText(ls[k], stamp)
  {
    seq(|ls|, k requires 0 <= k < |ls| => LineText(ls[k], stamp))
  }

  /** The "=" rule under a transcript's header. */
  function Rule(n: nat): (r: string)
    ensures |r| == n && forall k :: 0 <= k < n ==> r[k] == '='
  {
    if n == 0 then "" else Rule(n - 1) + "="
  }
}
