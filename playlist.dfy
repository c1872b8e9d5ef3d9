/** `PlaylistProcessor.process_playlist` of `main.py`: the batch driver that
    runs the video pipeline on every entry of a playlist document, oldest
    first, and does not stop at an entry whose pipeline run fails. Entry
    titles are a string or missing; a title of another type, which makes
    the source's log line raise and end the batch, is not modelled. */
module Playlist {
  import opened Wrappers
  import Pipeline
  import ObjectStore
  import Paths

  /** One entry of the playlist's `videos` list; `None` is a missing key. */
  datatype PlaylistVideo = PlaylistVideo(id: Option<string>, title: Option<string>)

  /** The decoded playlist document; `videos` is `None` when the key is absent. */
  datatype PlaylistDoc = PlaylistDoc(videos: Option<seq<PlaylistVideo>>)

  /** `video.get("id")` is truthy. */
  predicate HasId(v: PlaylistVideo)
  {
    v.id.Some? && v.id.value != ""
  }

  /** The bucket path an entry is processed as. */
  function VideoPath(id: string): string
  {
    "downloads/" + id + ".mp4"
  }

  function Reversed<T>(s: seq<T>): (r: seq<T>)
    ensures |r| == |s| && forall i :: 0 <= i < |s| ==> r[i] == s[|s| - 1 - i]
  {
    if s == [] then [] else Reversed(s[1..]) + [s[0]]
  }

  /** The number of `true` entries. */
  function CountTrue(bs: seq<bool>): (n: nat)
    ensures n <= |bs|
    ensures n == |bs| <==> forall i :: 0 <= i < |bs| ==> bs[i]
  {
    if bs == [] then 0 else CountTrue(bs[..|bs| - 1]) + (if bs[|bs| - 1] then 1 else 0)
  }

  /** The paths the pipeline is run on for `videos`, in order: one per entry
      that has an id. */
  function ProcessedPaths(videos: seq<PlaylistVideo>): seq<string>
  {
    if videos == [] then []
    else ProcessedPaths(videos[..|videos| - 1])
         + (if HasId(videos[|videos| - 1]) then [VideoPath(videos[|videos| - 1].id.value)] else [])
  }

  /** The entries without an id; each of them is counted as an error. */
  function Unidentified(videos: seq<PlaylistVideo>): (n: nat)
    ensures n + |ProcessedPaths(videos)| == |videos|
  {
    if videos == [] then 0
    else Unidentified(videos[..|videos| - 1]) + (if HasId(videos[|videos| - 1]) then 0 else 1)
  }

  lemma CountTrueSnoc(bs: seq<bool>, b: bool)
    ensures CountTrue(bs + [b]) == CountTrue(bs) + (if b then 1 else 0)
  {
    assert (bs + [b])[..|bs|] == bs;
  }

  lemma PathsSnoc(videos: seq<PlaylistVideo>, i: nat)
    requires i < |videos|
    ensures ProcessedPaths(videos[..i + 1]) == ProcessedPaths(videos[..i])
      + (if HasId(videos[i]) then [VideoPath(videos[i].id.value)] else [])
  {
    assert videos[..i + 1][..i] == videos[..i];
  }

  /** The bucket before and after one taken entry: an entry without an id
      fails and leaves the bucket alone; any other is one run of
      `process_video` on its bucket path, with that run's outcome. */
  ghost predicate EntryStep(video: PlaylistVideo, force: bool, tools: Pipeline.Tools, before: map<string, ObjectStore.StoredObject>,
                            after: map<string, ObjectStore.StoredObject>, unreachable: set<string>, success: bool)
  {
    if HasId(video) then
      exists done, writes :: Pipeline.Outcome(Pipeline.Current, force, tools, VideoPath(video.id.value), before, after,
                                              unreachable, success, done, writes)
    else !success && after == before
  }

  /** `states` is the bucket before the first entry and after each one, and
      every entry is the step EntryStep from one state to the next with its
      outcome. */
  ghost predicate Chain(videos: seq<PlaylistVideo>, force: bool, tools: Pipeline.Tools, states: seq<map<string, ObjectStore.StoredObject>>,
                        unreachable: set<string>, outcomes: seq<bool>)
    decreases |videos|
  {
    |states| == |videos| + 1 && |outcomes| == |videos|
    && (videos != [] ==>
          var n := |videos| - 1;
          Chain(videos[..n], force, tools, states[..n + 1], unreachable, outcomes[..n])
          && EntryStep(videos[n], force, tools, states[n], states[n + 1], unreachable, outcomes[n]))
  }

  /** A chain extended by one more step. */
  lemma ChainSnoc(videos: seq<PlaylistVideo>, i: nat, force: bool, tools: Pipeline.Tools, states: seq<map<string, ObjectStore.StoredObject>>,
                  unreachable: set<string>, outcomes: seq<bool>, after: map<string, ObjectStore.StoredObject>, success: bool)
    requires i < |videos|
    requires Chain(videos[..i], force, tools, states, unreachable, outcomes)
    requires EntryStep(videos[i], force, tools, states[i], after, unreachable, success)
    ensures Chain(videos[..i + 1], force, tools, states + [after], unreachable, outcomes + [success])
  {
    var vs, ss, os := videos[..i + 1], states + [after], outcomes + [success];
    assert vs[..i] == videos[..i] && ss[..i + 1] == states && os[..i] == outcomes;
    assert vs[i] == videos[i] && ss[i] == states[i] && ss[i + 1] == after && os[i] == success;
  }

  /** Every entry of a chain is one step between consecutive states. */
  lemma {:induction false} ChainAt(videos: seq<PlaylistVideo>, force: bool, tools: Pipeline.Tools, states: seq<map<string, ObjectStore.StoredObject>>,
                                   unreachable: set<string>, outcomes: seq<bool>, i: nat)
    requires Chain(videos, force, tools, states, unreachable, outcomes) && i < |videos|
    ensures EntryStep(videos[i], force, tools, states[i], states[i + 1], unreachable, outcomes[i])
    decreases |videos|
  {
    var n := |videos| - 1;
    if i < n {
      ChainAt(videos[..n], force, tools, states[..n + 1], unreachable, outcomes[..n], i);
      assert videos[..n][i] == videos[i] && states[..n + 1][i] == states[i] && states[..n + 1][i + 1] == states[i + 1];
      assert outcomes[..n][i] == outcomes[i];
    }
  }

  class PlaylistProcessor {
    const processor: Pipeline.VideoProcessor

    constructor (processor: Pipeline.VideoProcessor)
      ensures this.processor == processor
    {
      this.processor := processor;
    }

    /** One entry's `process_video`: the batch keeps its result, and the
        bucket is left as that run leaves it. */
    method RunEntry(path: string, force: bool) returns (success: bool)
      modifies processor.store`objects, processor.store`accessed
      ensures exists done, writes :: Pipeline.Outcome(Pipeline.Current, force, processor.tools, path, old(processor.store.objects),
                                                      processor.store.objects, processor.store.unreachable,
                                                      success, done, writes)
    {
      ghost var done, writes;
      success, done, writes := processor.ProcessVideo(path, force);
    }

    /** Entry `i` of `process_playlist`: an entry without an id fails
        without being processed, any other is processed as its bucket path;
        either way the chain of states so far grows by this entry's step. */
    method TakeEntry(videos: seq<PlaylistVideo>, i: nat, force: bool, ghost states: seq<map<string, ObjectStore.StoredObject>>,
                     ghost outcomes: seq<bool>) returns (success: bool, ghost path: seq<string>)
      requires i < |videos| && Chain(videos[..i], force, processor.tools, states, processor.store.unreachable, outcomes)
      requires states[i] == processor.store.objects
      modifies processor.store`objects, processor.store`accessed
      ensures Chain(videos[..i + 1], force, processor.tools, states + [processor.store.objects], processor.store.unreachable,
                    outcomes + [success])
      ensures path == if HasId(videos[i]) then [VideoPath(videos[i].id.value)] else []
    {
      success, path := false, [];
      var video := videos[i];
      if HasId(video) {
        success := RunEntry(VideoPath(video.id.value), force);
        path := [VideoPath(video.id.value)];
      }
      ChainSnoc(videos, i, force, processor.tools, states, processor.store.unreachable, outcomes, processor.store.objects, success);
    }

    /** The loop of `process_playlist` over the entries in the order taken:
        `outcomes[i]` is the result of entry `i`, and `states[i]` and
        `states[i + 1]` are the bucket before and after it, so each entry
        runs on the bucket the previous one left. */
    method TakeEntries(videos: seq<PlaylistVideo>, force: bool)
      returns (successCount: nat, errorCount: nat, outcomes: seq<bool>, ghost paths: seq<string>,
               ghost states: seq<map<string, ObjectStore.StoredObject>>)
      modifies processor.store`objects, processor.store`accessed
      ensures |outcomes| == |videos|
      ensures successCount == CountTrue(outcomes) && successCount + errorCount == |videos|
      ensures paths == ProcessedPaths(videos)
      ensures |states| == |videos| + 1
      ensures states[0] == old(processor.store.objects) && states[|videos|] == processor.store.objects
      ensures Chain(videos, force, processor.tools, states, processor.store.unreachable, outcomes)
    {
      successCount, errorCount, outcomes, paths, states := 0, 0, [], [], [processor.store.objects];
      var i := 0;
      while i < |videos|
        invariant 0 <= i <= |videos|
        invariant |outcomes| == i
        invariant successCount == CountTrue(outcomes) && successCount + errorCount == i
        invariant paths == ProcessedPaths(videos[..i])
        invariant |states| == i + 1 && states[0] == old(processor.store.objects) && states[i] == processor.store.objects
        invariant Chain(videos[..i], force, processor.tools, states, processor.store.unreachable, outcomes)
      {
        var success;
        ghost var path;
        success, path := TakeEntry(videos, i, force, states, outcomes);
        states := states + [processor.store.objects];
        PathsSnoc(videos, i);
        paths := paths + path;
        if success {
          successCount := successCount + 1;
        } else {
          errorCount := errorCount + 1;
        }
        CountTrueSnoc(outcomes, success);
        outcomes := outcomes + [success];
        i := i + 1;
      }
      assert videos[..i] == videos;
    }

    /** `process_playlist`: the entries are taken in reverse order; an entry
        without an id is an error and is not processed; every other entry
        is processed as `downloads/{id}.mp4`. `outcomes[i]` is the result of
        the `i`-th entry taken, and `states[i]` and `states[i + 1]` are the
        bucket before and after it, so each entry runs on the bucket the
        previous one left; the counts add up to the number of entries and
        the playlist succeeds iff no entry failed (an empty playlist
        succeeds). */
    method ProcessPlaylist(playlist: PlaylistDoc, force: bool)
      returns (ok: bool, successCount: nat, errorCount: nat, outcomes: seq<bool>, ghost paths: seq<string>,
               ghost states: seq<map<string, ObjectStore.StoredObject>>)
      modifies processor.store`objects, processor.store`accessed
      ensures var videos := Reversed(playlist.videos.GetOr([]));
        |outcomes| == |videos|
        && successCount == CountTrue(outcomes)
        && successCount + errorCount == |videos|
        && (forall i :: 0 <= i < |videos| && !HasId(videos[i]) ==> !outcomes[i])
        && paths == ProcessedPaths(videos)
      ensures var videos := Reversed(playlist.videos.GetOr([]));
        |states| == |videos| + 1
        && states[0] == old(processor.store.objects) && states[|videos|] == processor.store.objects
        && forall i :: 0 <= i < |videos| ==>
             EntryStep(videos[i], force, processor.tools, states[i], states[i + 1], processor.store.unreachable, outcomes[i])
      ensures ok <==> errorCount == 0
      ensures ok <==> forall i :: 0 <= i < |outcomes| ==> outcomes[i]
    {
      var videos := playlist.videos.GetOr([]);
      if videos == [] {
        return true, 0, 0, [], [], [processor.store.objects];
      }
      successCount, errorCount, outcomes, paths, states := TakeEntries(Reversed(videos), force);
      forall i | 0 <= i < |videos|
        ensures EntryStep(Reversed(videos)[i], force, processor.tools, states[i], states[i + 1], processor.store.unreachable, outcomes[i])
        ensures !HasId(Reversed(videos)[i]) ==> !outcomes[i]
      {
        ChainAt(Reversed(videos), force, processor.tools, states, processor.store.unreachable, outcomes, i);
      }
      ok := errorCount == 0;
    }
  }
}
