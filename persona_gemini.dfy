/** The diarization script `test_persona_gemini.py`: its final-output
    shaping, `save_transcription` and `get_speaker_stats`. The WhisperX and
    pyannote steps before them are those of the persona service and are not
    repeated here. */
module DiarizationScript {
  import opened Wrappers
  import opened Text
  import opened Transcript
  import opened Counting

  /** The script's final output. Its times carry their unit: `f"{start:.2f}s"`. */
  function ScriptFinalize(raw: RawSegment): (s: Segment)
    ensures s.start == raw.start + "s" && s.end == raw.end + "s"
    ensures s.speaker == Finalize(raw).speaker && s.text == Finalize(raw).text
  {
    Segment(raw.speaker.GetOr(Unknown), raw.start + "s", raw.end + "s", Strip(raw.text))
  }

  /** `[{start_time} -> {end_time}] {text}`. */
  function ScriptStamp(s: Segment): string
  {
    "[" + s.start + " -> " + s.end + "] " + s.text
  }

  /** The script and the persona service write the same timestamp line for
      the same assigned segment. */
  lemma StampsAgree(raw: RawSegment)
    ensures ScriptStamp(ScriptFinalize(raw)) == StampText(Finalize(raw))
  {
  }

  const Banner := "=== TRANSCRIPTION WITH SPEAKER DIARIZATION (GPU-PROCESSED) ==="

  /** `save_transcription`: the banner, a blank line, then the grouped layout. */
  method SaveTranscription(segs: seq<Segment>) returns (lines: seq<string>)
    ensures |lines| >= 2 && lines[0] == Banner && lines[1] == ""
    ensures lines[2..] == LinesText(RenderRuns(Runs(segs)), ScriptStamp)
  {
    var layout := LayoutSegments(segs);
    lines := [Banner, ""] + LinesText(layout, ScriptStamp);
  }

  /** The integer counters of one speaker's entry; its total duration is a
      float and is not modelled. */
  datatype Stats = Stats(segmentCount: nat, wordCount: nat)

  /** The number of segments of `speaker`. */
  function SegmentCount(segs: seq<Segment>, speaker: string): nat
  {
    if segs == [] then 0
    else SegmentCount(segs[..|segs| - 1], speaker) + (if segs[|segs| - 1].speaker == speaker then 1 else 0)
  }

  /** The whitespace-separated words of the segments of `speaker`. */
  function WordTotal(segs: seq<Segment>, speaker: string): nat
  {
    if segs == [] then 0
    else WordTotal(segs[..|segs| - 1], speaker) + (if segs[|segs| - 1].speaker == speaker then WordCount(segs[|segs| - 1].text) else 0)
  }

  /** The sum of the segment counts of the listed speakers. */
  function SumSegmentCounts(order: seq<string>, stats: map<string, Stats>): nat
    requires forall k :: 0 <= k < |order| ==> order[k] in stats
  {
    if order == [] then 0
    else SumSegmentCounts(order[..|order| - 1], stats) + stats[order[|order| - 1]].segmentCount
  }

  /** The entries for `segs`: one per speaker, in first-appearance order,
      each with that speaker's counts. */
  ghost predicate Tallied(segs: seq<Segment>, order: seq<string>, stats: map<string, Stats>)
  {
    && order == Speakers(segs)
    && (forall sp :: sp in stats <==> sp in order)
    && Counted(segs, stats)
  }

  /** Every entry holds its speaker's counts over `segs`. */
  ghost predicate Counted(segs: seq<Segment>, stats: map<string, Stats>)
  {
    forall sp :: sp in stats ==> stats[sp] == Stats(SegmentCount(segs, sp), WordTotal(segs, sp))
  }

  /** `get_speaker_stats`, with the dictionary's key order kept in `order`. */
  method SpeakerStats(segs: seq<Segment>) returns (order: seq<string>, stats: map<string, Stats>)
    ensures order == Speakers(segs)
    ensures forall sp :: sp in stats <==> sp in order
    ensures forall sp :: sp in stats ==> stats[sp] == Stats(SegmentCount(segs, sp), WordTotal(segs, sp))
    ensures forall k :: 0 <= k < |order| ==> order[k] in stats
    ensures SumSegmentCounts(order, stats) == |segs|
  {
    order := [];
    stats := map[];
    for i := 0 to |segs|
      invariant Tallied(segs[..i], order, stats)
    {
      assert segs[..i + 1] == segs[..i] + [segs[i]];
      order, stats := TallySegment(segs[..i], segs[i], order, stats);
    }
    assert segs[..|segs|] == segs;
    StatsAddUp(segs, order, stats);
  }

  /** One iteration of `get_speaker_stats`: add the segment's speaker if it
      is new, then count the segment and its words. */
  method TallySegment(ghost done: seq<Segment>, seg: Segment, order: seq<string>, stats: map<string, Stats>)
    returns (order': seq<string>, stats': map<string, Stats>)
    requires Tallied(done, order, stats)
    ensures Tallied(done + [seg], order', stats')
  {
    var speaker := seg.speaker;
    order', stats' := order, stats;
    if speaker !in stats {
      AbsentSpeakerCounts(done, speaker);
      CountedNew(done, stats, speaker);
      stats' := stats'[speaker := Stats(0, 0)];
      order' := order' + [speaker];
      assert Counted(done, stats');
    } else {
      assert Counted(done, stats');
    }
    ghost var counted := stats';
    var old_ := stats'[speaker];
    stats' := stats'[speaker := Stats(old_.segmentCount + 1, old_.wordCount + WordCount(seg.text))];
    assert order' == Speakers(done + [seg]) by {
      SpeakersSnoc(done, seg);
    }
    assert forall sp :: sp in stats' <==> sp in order';
    CountedSnoc(done, seg, counted);
  }

  /** Counting one more segment of its speaker keeps every entry's counts. */
  lemma CountedSnoc(done: seq<Segment>, seg: Segment, counted: map<string, Stats>)
    requires Counted(done, counted) && seg.speaker in counted
    ensures Counted(done + [seg], counted[seg.speaker := Stats(counted[seg.speaker].segmentCount + 1,
                                                               counted[seg.speaker].wordCount + WordCount(seg.text))])
  {
    var stats := counted[seg.speaker := Stats(counted[seg.speaker].segmentCount + 1,
                                              counted[seg.speaker].wordCount + WordCount(seg.text))];
    forall sp | sp in stats
      ensures stats[sp] == Stats(SegmentCount(done + [seg], sp), WordTotal(done + [seg], sp))
    {
      CountsSnoc(done, seg, sp);
      if sp != seg.speaker {
        assert stats[sp] == counted[sp];
      }
    }
  }

  /** A speaker without segments starts with zero counts. */
  lemma CountedNew(done: seq<Segment>, stats: map<string, Stats>, speaker: string)
    requires Counted(done, stats)
    requires SegmentCount(done, speaker) == 0 && WordTotal(done, speaker) == 0
    ensures Counted(done, stats[speaker := Stats(0, 0)])
  {
  }

  /** A segment adds its speaker to the speakers when it is new. */
  lemma SpeakersSnoc(done: seq<Segment>, seg: Segment)
    ensures Speakers(done + [seg]) ==
      if seg.speaker in Speakers(done) then Speakers(done) else Speakers(done) + [seg.speaker]
  {
    assert (done + [seg])[..|done|] == done;
  }

  /** A segment adds to its own speaker's counts only. */
  lemma CountsSnoc(done: seq<Segment>, seg: Segment, sp: string)
    ensures SegmentCount(done + [seg], sp) == SegmentCount(done, sp) + (if seg.speaker == sp then 1 else 0)
    ensures WordTotal(done + [seg], sp) == WordTotal(done, sp) + (if seg.speaker == sp then WordCount(seg.text) else 0)
  {
    assert (done + [seg])[..|done|] == done;
  }

  /** Entries for exactly the speakers, each with its segment count, add up
      to the number of segments. */
  lemma StatsAddUp(segs: seq<Segment>, order: seq<string>, stats: map<string, Stats>)
    requires order == Speakers(segs)
    requires forall sp :: sp in stats <==> sp in order
    requires forall sp :: sp in stats ==> stats[sp].segmentCount == SegmentCount(segs, sp)
    ensures forall k :: 0 <= k < |order| ==> order[k] in stats
    ensures SumSegmentCounts(order, stats) == |segs|
  {
    assert forall k :: 0 <= k < |order| ==> order[k] in stats && stats[order[k]].segmentCount == SegmentCount(segs, order[k]);
    SumSegmentCountsOfStats(order, segs, stats);
    SpeakersCover(segs);
    CountsCoverSegments(order, segs);
  }

  /** Every segment's speaker is among the speakers. */
  lemma SpeakersCover(segs: seq<Segment>)
    ensures forall k :: 0 <= k < |segs| ==> segs[k].speaker in Speakers(segs)
  {
    forall k | 0 <= k < |segs| ensures segs[k].speaker in Speakers(segs) {
      var sp := segs[k].speaker;
      assert 0 <= k < |segs| && segs[k].speaker == sp;
    }
  }

  lemma {:induction false} AbsentSpeakerCounts(segs: seq<Segment>, speaker: string)
    requires speaker !in Speakers(segs)
    ensures SegmentCount(segs, speaker) == 0 && WordTotal(segs, speaker) == 0
  {
    if segs != [] {
      var init := segs[..|segs| - 1];
      assert forall k :: 0 <= k < |init| ==> init[k] == segs[k];
      assert speaker !in Speakers(init);
      AbsentSpeakerCounts(init, speaker);
    }
  }

  /** The total of the counts of the listed speakers. */
  function SumCounts(order: seq<string>, segs: seq<Segment>): nat
  {
    if order == [] then 0
    else SumCounts(order[..|order| - 1], segs) + SegmentCount(segs, order[|order| - 1])
  }

  /** Adding one segment adds its speaker's occurrences to the total. */
  lemma {:induction false} SumCountsSnoc(order: seq<string>, segs: seq<Segment>, x: Segment)
    ensures SumCounts(order, segs + [x]) == SumCounts(order, segs) + Occurrences(order, x.speaker)
  {
    assert (segs + [x])[..|segs|] == segs;
    if order != [] {
      SumCountsSnoc(order[..|order| - 1], segs, x);
    }
  }

  /** Over speakers listed once each, covering every segment, the counts
      add up to the number of segments. */
  lemma {:induction false} CountsCoverSegments(order: seq<string>, segs: seq<Segment>)
    requires Distinct(order)
    requires forall k :: 0 <= k < |segs| ==> segs[k].speaker in order
    ensures SumCounts(order, segs) == |segs|
  {
    if segs == [] {
      ZeroCounts(order);
    } else {
      var init := segs[..|segs| - 1];
      var x := segs[|segs| - 1];
      assert forall k :: 0 <= k < |init| ==> init[k] == segs[k];
      CountsCoverSegments(order, init);
      assert segs == init + [x];
      SumCountsSnoc(order, init, x);
      OccurrencesDistinct(order, x.speaker);
    }
  }

  lemma {:induction false} ZeroCounts(order: seq<string>)
    ensures SumCounts(order, []) == 0
  {
    if order != [] {
      ZeroCounts(order[..|order| - 1]);
    }
  }

  lemma {:induction false} SumSegmentCountsOfStats(order: seq<string>, segs: seq<Segment>, stats: map<string, Stats>)
    requires forall k :: 0 <= k < |order| ==> order[k] in stats && stats[order[k]].segmentCount == SegmentCount(segs, order[k])
    ensures SumSegmentCounts(order, stats) == SumCounts(order, segs)
  {
    if order != [] {
      SumSegmentCountsOfStats(order[..|order| - 1], segs, stats);
    }
  }
}
