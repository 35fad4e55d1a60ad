/**
 Recording a match and reading it back: server-game/src/game/session-recorder.ts decides which frames are
 keyframes, server-game/src/replay/recorder.ts cuts them into chunks under a process-wide byte budget, and
 server-game/src/replay/cli.ts rebuilds the world at a tick from one chunk.
 */
module Replay {
  import opened Wrappers
  import opened Tiles
  import opened Snapshots

  const FRAMES_PER_CHUNK := 60
  const MATCH_FRAME_LIMIT := 36_000
  const PROCESS_SPOOL_LIMIT_BYTES := 268_435_456

  datatype Recorded = Recorded(tick: nat, full: bool, snapshot: Snapshot, size: nat)

  /** Visibility masks and events only matter by being there; their ticks stand for them. */
  datatype Chunk = Chunk(frames: seq<Recorded>, visibilities: seq<nat>, events: seq<nat>)

  const EMPTY := Chunk([], [], [])

  // ---------------------------------------------------------------------------------------------
  // MemoryReplayRecorder

  datatype Tape = Tape(
    begun: bool,
    chunks: seq<Chunk>,
    current: Chunk,
    frameCount: nat,
    spooled: nat,
    aborted: bool,
    finished: bool
  )

  const NEW_TAPE := Tape(false, [], EMPTY, 0, 0, false, false)

  function Released(t: Tape, process: nat): (Tape, nat) {
    (t.(spooled := 0, chunks := [], current := EMPTY), if process >= t.spooled then process - t.spooled else 0)
  }

  function Aborted(t: Tape, process: nat): (Tape, nat) {
    if t.aborted || t.finished then (t, process) else Released(t.(aborted := true), process)
  }

  function Rotated(t: Tape): Tape {
    t.(chunks := t.chunks + [t.current], current := EMPTY)
  }

  function Written(t: Tape, process: nat, f: Recorded): (Tape, nat) {
    if t.aborted || t.finished || !t.begun then (t, process)
    else
      var cut := if f.full && t.current.frames != [] then Rotated(t) else t;
      if cut.frameCount >= MATCH_FRAME_LIMIT || process + f.size > PROCESS_SPOOL_LIMIT_BYTES then Aborted(cut, process)
      else
        (cut.(current := cut.current.(frames := cut.current.frames + [f]),
              frameCount := cut.frameCount + 1, spooled := cut.spooled + f.size),
         process + f.size)
  }

  function Noted(t: Tape, visibilities: seq<nat>, events: seq<nat>): Tape {
    if t.aborted || t.finished then t
    else
      t.(current := t.current.(visibilities := t.current.visibilities + visibilities,
                               events := t.current.events + events))
  }

  /** The part of `finish` before its first await: what is left to store, if anything. */
  function Closed(t: Tape, process: nat): (Tape, nat, seq<Chunk>) {
    if t.aborted || t.finished || !t.begun then
      var (r, p) := Released(t, process);
      (r, p, [])
    else
      var chunks := if t.current == EMPTY then t.chunks else t.chunks + [t.current];
      var done := t.(finished := true, chunks := chunks);
      if chunks == [] then
        var (r, p) := Released(done, process);
        (r, p, [])
      else (done, process, chunks)
  }

  /** The counter every recorder of the process shares. */
  class Spool {
    var bytes: nat

    constructor ()
      ensures bytes == 0
    {
      bytes := 0;
    }
  }

  class MemoryReplayRecorder {
    const spool: Spool
    var begun: bool
    var chunks: seq<Chunk>
    var current: Chunk
    var frameCount: nat
    var spooledBytes: nat
    var aborted: bool
    var finished: bool

    constructor (spool: Spool)
      ensures this.spool == spool && Model() == NEW_TAPE
    {
      this.spool := spool;
      begun, chunks, current, frameCount, spooledBytes := false, [], EMPTY, 0, 0;
      aborted, finished := false, false;
    }

    function Model(): Tape
      reads this
    {
      Tape(begun, chunks, current, frameCount, spooledBytes, aborted, finished)
    }

    method Begin()
      modifies this`begun
      ensures Model() == old(Model()).(begun := true)
    {
      begun := true;
    }

    method WriteFrame(f: Recorded)
      modifies this, spool
      ensures (Model(), spool.bytes) == Written(old(Model()), old(spool.bytes), f)
    {
      if aborted || finished || !begun {
        return;
      }
      if f.full && |current.frames| > 0 {
        RotateChunk();
      }
      if frameCount >= MATCH_FRAME_LIMIT {
        Abort();
        return;
      }
      if spool.bytes + f.size > PROCESS_SPOOL_LIMIT_BYTES {
        Abort();
        return;
      }
      current := current.(frames := current.frames + [f]);
      frameCount := frameCount + 1;
      spooledBytes := spooledBytes + f.size;
      spool.bytes := spool.bytes + f.size;
    }

    method Note(visibilities: seq<nat>, events: seq<nat>)
      modifies this`current
      ensures Model() == Noted(old(Model()), visibilities, events)
    {
      if aborted || finished {
        return;
      }
      current := current.(visibilities := current.visibilities + visibilities, events := current.events + events);
    }

    /** `finish` up to its first await; the caller stores the chunks and then calls `Release`. */
    method Finish() returns (stored: seq<Chunk>)
      modifies this, spool
      ensures (Model(), spool.bytes, stored) == Closed(old(Model()), old(spool.bytes))
    {
      stored := [];
      if aborted || finished || !begun {
        Release();
        return;
      }
      finished := true;
      if |current.frames| > 0 || |current.visibilities| > 0 || |current.events| > 0 {
        chunks := chunks + [current];
      }
      if |chunks| == 0 {
        Release();
        return;
      }
      stored := chunks;
    }

    method Abort()
      modifies this, spool
      ensures (Model(), spool.bytes) == Aborted(old(Model()), old(spool.bytes))
    {
      if aborted || finished {
        return;
      }
      aborted := true;
      Release();
    }

    method RotateChunk()
      modifies this`chunks, this`current
      ensures Model() == Rotated(old(Model()))
    {
      chunks := chunks + [current];
      current := EMPTY;
    }

    method Release()
      modifies this, spool
      ensures (Model(), spool.bytes) == Released(old(Model()), old(spool.bytes))
    {
      spool.bytes := if spool.bytes - spooledBytes >= 0 then spool.bytes - spooledBytes else 0;
      spooledBytes := 0;
      chunks := [];
      current := EMPTY;
    }
  }

  // ---------------------------------------------------------------------------------------------
  // SessionReplayRecorder

  /** What the session hands over at a recorded tick; `tiles` is the world's grid then. */
  datatype Shot = Shot(tick: nat, tiles: Grid, changes: seq<Change>, players: Value, storm: Value, final: bool,
      size: nat)

  function Content(shot: Shot): Section -> Value {
    (s: Section) => if s == Players then shot.players else if s == Storm then shot.storm else 0
  }

  function Keyframe(shot: Shot, recorded: nat): bool {
    shot.final || recorded % FRAMES_PER_CHUNK == 0
  }

  function FrameOf(shot: Shot, recorded: nat): Recorded {
    var full := Keyframe(shot, recorded);
    Recorded(shot.tick, full,
             Built(Viewer(None, Unfiltered, full, false), shot.tick, shot.tiles, shot.changes, Content(shot)),
             shot.size)
  }

  class SessionReplayRecorder {
    const recorder: MemoryReplayRecorder
    var recordedFrames: nat

    constructor (recorder: MemoryReplayRecorder)
      ensures this.recorder == recorder && recordedFrames == 0
    {
      this.recorder := recorder;
      recordedFrames := 0;
    }

    method RecordSnapshotTick(shot: Shot)
      requires !shot.final
      modifies this, recorder, recorder.spool
      ensures recordedFrames == old(recordedFrames) + 1
      ensures (recorder.Model(), recorder.spool.bytes)
           == Recording(old(recorder.Model()), old(recorder.spool.bytes), old(recordedFrames), shot)
    {
      WriteFrame(shot, recordedFrames % FRAMES_PER_CHUNK == 0);
    }

    method RecordFinalFrame(shot: Shot)
      requires shot.final
      modifies this, recorder, recorder.spool
      ensures recordedFrames == old(recordedFrames) + 1
      ensures (recorder.Model(), recorder.spool.bytes)
           == Recording(old(recorder.Model()), old(recorder.spool.bytes), old(recordedFrames), shot)
    {
      WriteFrame(shot, true);
    }

    method WriteFrame(shot: Shot, full: bool)
      requires full == Keyframe(shot, recordedFrames)
      modifies this, recorder, recorder.spool
      ensures recordedFrames == old(recordedFrames) + 1
      ensures (recorder.Model(), recorder.spool.bytes)
           == Recording(old(recorder.Model()), old(recorder.spool.bytes), old(recordedFrames), shot)
    {
      var snapshot := BuildSnapshot(Viewer(None, Unfiltered, full, false), shot.tick, shot.tiles, shot.changes,
          Content(shot));
      recorder.WriteFrame(Recorded(shot.tick, full, snapshot, shot.size));
      recordedFrames := recordedFrames + 1;
      recorder.Note([shot.tick], []);
    }

    method RecordEvents(ticks: seq<nat>)
      modifies recorder
      ensures recorder.Model() == Noted(old(recorder.Model()), [], ticks)
    {
      recorder.Note([], ticks);
    }
  }

  /** One recorded tick: the frame, then its visibility mask. */
  function Recording(t: Tape, process: nat, recorded: nat, shot: Shot): (Tape, nat) {
    var (w, p) := Written(t, process, FrameOf(shot, recorded));
    (Noted(w, [shot.tick], []), p)
  }

  // ---------------------------------------------------------------------------------------------
  // Reading back

  /** What the tool prints for a tick; `None` is an absent section. */
  datatype View = View(tick: nat, tiles: Grid, players: Option<Value>, storm: Option<Value>)

  function SectionOr(s: Snapshot, section: Section, otherwise: Option<Value>): Option<Value> {
    if section in s.sections then Some(s.sections[section]) else otherwise
  }

  function Opened(key: Snapshot): Option<View> {
    if key.grid.None? then None
    else Some(View(key.tick, key.grid.value, SectionOr(key, Players, None), SectionOr(key, Storm, None)))
  }

  function Advanced(v: View, s: Snapshot): View {
    View(s.tick,
         if s.tileChanges.Some? then ApplyAll(v.tiles, s.tileChanges.value) else v.tiles,
         SectionOr(s, Players, v.players), SectionOr(s, Storm, v.storm))
  }

  function Replayed(frames: seq<Recorded>): Option<View>
    decreases |frames|
  {
    if frames == [] then None
    else
      var n := |frames| - 1;
      if n == 0 then Opened(frames[0].snapshot)
      else
        var before := Replayed(frames[..n]);
        if before.None? then None else Some(Advanced(before.value, frames[n].snapshot))
  }

  function UpTo(frames: seq<Recorded>, tick: nat): seq<Recorded>
    decreases |frames|
  {
    if frames == [] then []
    else
      var front := UpTo(frames[..|frames| - 1], tick);
      var last := frames[|frames| - 1];
      if last.tick <= tick then front + [last] else front
  }

  /** Stable insertion by tick: after everything that is not later. */
  function Inserted(sorted: seq<Recorded>, f: Recorded): seq<Recorded>
    decreases |sorted|
  {
    if sorted == [] || sorted[|sorted| - 1].tick <= f.tick then sorted + [f]
    else Inserted(sorted[..|sorted| - 1], f) + [sorted[|sorted| - 1]]
  }

  function Sorted(frames: seq<Recorded>): seq<Recorded>
    decreases |frames|
  {
    if frames == [] then [] else Inserted(Sorted(frames[..|frames| - 1]), frames[|frames| - 1])
  }

  /** Where a chunk starts by the index: at its first frame, or where the match does when it has none. */
  function StartTick(chunk: Chunk, matchStart: nat): nat {
    if chunk.frames == [] then matchStart else chunk.frames[0].tick
  }

  /** The last chunk that starts at or before the tick. */
  function Picked(chunks: seq<Chunk>, matchStart: nat, tick: nat): Option<Chunk>
    decreases |chunks|
  {
    if chunks == [] then None
    else if StartTick(chunks[|chunks| - 1], matchStart) <= tick then Some(chunks[|chunks| - 1])
    else Picked(chunks[..|chunks| - 1], matchStart, tick)
  }

  function ReconstructedAt(chunks: seq<Chunk>, matchStart: nat, tick: nat): Option<View> {
    var chunk := Picked(chunks, matchStart, tick);
    if chunk.None? then None else Replayed(Sorted(UpTo(chunk.value.frames, tick)))
  }

  method FindChunk(chunks: seq<Chunk>, matchStart: nat, tick: nat) returns (chunk: Option<Chunk>)
    ensures chunk == Picked(chunks, matchStart, tick)
  {
    var i := |chunks|;
    assert chunks[..i] == chunks;
    while i > 0
      invariant 0 <= i <= |chunks|
      invariant Picked(chunks, matchStart, tick) == Picked(chunks[..i], matchStart, tick)
    {
      i := i - 1;
      assert chunks[..i + 1][..i] == chunks[..i];
      if StartTick(chunks[i], matchStart) <= tick {
        return Some(chunks[i]);
      }
    }
    return None;
  }

  method ReconstructAt(chunk: Chunk, tick: nat) returns (view: Option<View>)
    ensures view == Replayed(Sorted(UpTo(chunk.frames, tick)))
  {
    var frames := Sorted(UpTo(chunk.frames, tick));
    if |frames| == 0 {
      return None;
    }
    var snapshot := frames[0].snapshot;
    if snapshot.grid.None? {
      NoKeyframe(frames);
      return None;
    }
    var tiles := snapshot.grid.value;
    var cursor := snapshot.tick;
    var players := SectionOr(snapshot, Players, None);
    var storm := SectionOr(snapshot, Storm, None);
    var i := 1;
    assert frames[..1] == [frames[0]];
    while i < |frames|
      invariant 1 <= i <= |frames|
      invariant Replayed(frames[..i]) == Some(View(cursor, tiles, players, storm))
    {
      assert frames[..i + 1][..i] == frames[..i];
      var decoded := frames[i].snapshot;
      cursor := decoded.tick;
      players := SectionOr(decoded, Players, players);
      storm := SectionOr(decoded, Storm, storm);
      if decoded.tileChanges.Some? {
        tiles := Painted(tiles, decoded.tileChanges.value);
      }
      i := i + 1;
    }
    assert frames[..i] == frames;
    return Some(View(cursor, tiles, players, storm));
  }

  method Painted(tiles: Grid, changes: seq<Change>) returns (after: Grid)
    ensures after == ApplyAll(tiles, changes)
  {
    after := tiles;
    var i := 0;
    while i < |changes|
      invariant i <= |changes|
      invariant after == ApplyAll(tiles, changes[..i])
    {
      var c := changes[i];
      assert changes[..i + 1][..i] == changes[..i];
      if 0 <= c.y < |after| && 0 <= c.x < |after[c.y]| {
        after := after[c.y := after[c.y][c.x := c.physics]];
      }
      i := i + 1;
    }
    assert changes[..i] == changes;
  }

  lemma {:induction false} NoKeyframe(frames: seq<Recorded>)
    requires frames != [] && frames[0].snapshot.grid.None?
    ensures Replayed(frames) == None
    decreases |frames|
  {
    if |frames| > 1 {
      NoKeyframe(frames[..|frames| - 1]);
    }
  }

  // ---------------------------------------------------------------------------------------------
  // The round trip

  ghost predicate InOrder(frames: seq<Recorded>) {
    forall i, j :: 0 <= i < j < |frames| ==> frames[i].tick <= frames[j].tick
  }

  lemma {:induction false} SortedStays(frames: seq<Recorded>)
    requires InOrder(frames)
    ensures Sorted(frames) == frames
    decreases |frames|
  {
    if frames != [] {
      SortedStays(frames[..|frames| - 1]);
    }
  }

  lemma {:induction false} UpToAll(frames: seq<Recorded>, tick: nat)
    requires forall f :: f in frames ==> f.tick <= tick
    ensures UpTo(frames, tick) == frames
    decreases |frames|
  {
    if frames != [] {
      UpToAll(frames[..|frames| - 1], tick);
    }
  }

  /** The session's shots: ticks never fall, and between two of them the world changed exactly as the later one says. */
  ghost predicate Film(start: Grid, shots: seq<Shot>)
    decreases |shots|
  {
    shots != [] ==>
      var n := |shots| - 1;
      && Film(start, shots[..n])
      && (n > 0 ==> shots[n - 1].tick <= shots[n].tick)
      && shots[n].tiles == ApplyAll(if n == 0 then start else shots[n - 1].tiles, shots[n].changes)
  }

  /** What happens before a shot: other recorders come to hold so many bytes, and masks and events are noted. */
  datatype Interlude = Interlude(others: nat, visibilities: seq<nat>, events: seq<nat>)

  function NotedIn(t: Tape, b: Interlude): Tape {
    Noted(t, b.visibilities, b.events)
  }

  /** The tape after recording every shot, with `interludes[i]` before shot i. */
  function Recorder(shots: seq<Shot>, interludes: seq<Interlude>): Tape
    requires |interludes| == |shots|
    decreases |shots|
  {
    if shots == [] then NEW_TAPE.(begun := true)
    else
      var n := |shots| - 1;
      var t := Recorder(shots[..n], interludes[..n]);
      Recording(NotedIn(t, interludes[n]), interludes[n].others + t.spooled, n, shots[n]).0
  }

  function Frames(shots: seq<Shot>): (frames: seq<Recorded>)
    ensures |frames| == |shots|
    decreases |shots|
  {
    if shots == [] then [] else Frames(shots[..|shots| - 1]) + [FrameOf(shots[|shots| - 1], |shots| - 1)]
  }

  function Spliced(chunks: seq<Chunk>): seq<Recorded>
    decreases |chunks|
  {
    if chunks == [] then [] else Spliced(chunks[..|chunks| - 1]) + chunks[|chunks| - 1].frames
  }

  lemma SplicedSnoc(chunks: seq<Chunk>, last: Chunk)
    ensures Spliced(chunks + [last]) == Spliced(chunks) + last.frames
  {
    assert (chunks + [last])[..|chunks|] == chunks;
  }

  /** A chunk holds frames, the first of them is a keyframe, and no other is. */
  ghost predicate WellCut(chunk: Chunk) {
    && 0 < |chunk.frames| <= FRAMES_PER_CHUNK
    && forall i :: 0 <= i < |chunk.frames| ==> (chunk.frames[i].full <==> i == 0)
  }

  /** What the tape holds while recording goes on. */
  ghost predicate Holds(t: Tape, frames: seq<Recorded>) {
    && t.begun && !t.finished && t.frameCount == |frames|
    && Spliced(t.chunks + [t.current]) == frames
    && (forall c :: c in t.chunks ==> WellCut(c))
    && if frames == [] then t.chunks == [] && t.current.frames == []
       else WellCut(t.current) && |t.current.frames| <= (|frames| - 1) % FRAMES_PER_CHUNK + 1
  }

  lemma AbortIsFinal(t: Tape, process: nat, recorded: nat, shot: Shot)
    ensures t.aborted ==> Recording(t, process, recorded, shot).0.aborted
  {
  }

  /** One more shot on the tape; a recording that survives it survived everything before. */
  lemma RecorderStep(shots: seq<Shot>, interludes: seq<Interlude>) returns (t: Tape, process: nat)
    requires |interludes| == |shots| > 0
    ensures
      var n := |shots| - 1;
      var before := Recorder(shots[..n], interludes[..n]);
      && t == NotedIn(before, interludes[n]) && process == interludes[n].others + t.spooled
      && Recorder(shots, interludes) == Recording(t, process, n, shots[n]).0
      && (!Recorder(shots, interludes).aborted ==> !before.aborted && !t.aborted)
  {
    var n := |shots| - 1;
    t := NotedIn(Recorder(shots[..n], interludes[..n]), interludes[n]);
    process := interludes[n].others + t.spooled;
    AbortIsFinal(t, process, n, shots[n]);
  }

  /** Notes leave the frames where they are. */
  lemma NotesHold(t: Tape, b: Interlude, frames: seq<Recorded>)
    requires Holds(t, frames)
    ensures Holds(NotedIn(t, b), frames)
  {
    SplicedSnoc(t.chunks, t.current);
    SplicedSnoc(t.chunks, NotedIn(t, b).current);
  }

  /** What a write that does not abort leaves in the chunks. */
  lemma NextTape(t: Tape, process: nat, shot: Shot, recorded: nat)
    requires t.begun && !t.finished && !Recording(t, process, recorded, shot).0.aborted
    ensures
      var r := Recording(t, process, recorded, shot).0;
      var f := FrameOf(shot, recorded);
      && !t.aborted && r.begun && !r.finished && r.frameCount == t.frameCount + 1 && r.current != EMPTY
      && if f.full && t.current.frames != [] then r.chunks == t.chunks + [t.current] && r.current.frames == [f]
         else r.chunks == t.chunks && r.current.frames == t.current.frames + [f]
  {
  }

  lemma WriteHolds(t: Tape, process: nat, shot: Shot, frames: seq<Recorded>)
    requires Holds(t, frames)
    requires !Recording(t, process, |frames|, shot).0.aborted
    ensures Holds(Recording(t, process, |frames|, shot).0, frames + [FrameOf(shot, |frames|)])
  {
    var f := FrameOf(shot, |frames|);
    var r := Recording(t, process, |frames|, shot).0;
    NextTape(t, process, shot, |frames|);
    SplicedSnoc(t.chunks, t.current);
    SplicedSnoc(r.chunks, r.current);
    if f.full && t.current.frames != [] {
    } else {
      assert frames + [f] == Spliced(t.chunks) + (t.current.frames + [f]);
    }
  }

  /** Chunks: each starts with its only keyframe, holds at most 60 frames, and together they are the frames in order. */
  lemma {:induction false} ChunksAreTheFrames(shots: seq<Shot>, interludes: seq<Interlude>)
    requires |interludes| == |shots| && !Recorder(shots, interludes).aborted
    ensures Holds(Recorder(shots, interludes), Frames(shots))
    decreases |shots|
  {
    if shots == [] {
      SplicedSnoc([], EMPTY);
    } else {
      var n := |shots| - 1;
      var t, process := RecorderStep(shots, interludes);
      ChunksAreTheFrames(shots[..n], interludes[..n]);
      NotesHold(Recorder(shots[..n], interludes[..n]), interludes[n], Frames(shots[..n]));
      WriteHolds(t, process, shots[n], Frames(shots[..n]));
    }
  }

  /** The last shot at or before a tick. */
  function LastShot(shots: seq<Shot>, tick: nat): Option<Shot>
    decreases |shots|
  {
    if shots == [] then None
    else if shots[|shots| - 1].tick <= tick then Some(shots[|shots| - 1])
    else LastShot(shots[..|shots| - 1], tick)
  }

  function ViewOf(shot: Shot): View {
    View(shot.tick, shot.tiles, Some(shot.players), Some(shot.storm))
  }

  function ExpectedAt(shots: seq<Shot>, tick: nat): Option<View> {
    var shot := LastShot(shots, tick);
    if shot.None? then None else Some(ViewOf(shot.value))
  }

  /** The chunks a finished recording would store now. */
  function Stored(t: Tape): seq<Chunk> {
    if t.current == EMPTY then t.chunks else t.chunks + [t.current]
  }

  /** The chunk in progress is in order, ends with the last shot and replays to it. */
  ghost predicate InStep(t: Tape, shots: seq<Shot>) {
    if shots == [] then t.chunks == [] && t.current.frames == []
    else
      var last := shots[|shots| - 1];
      && t.current.frames != []
      && InOrder(t.current.frames)
      && t.current.frames[|t.current.frames| - 1].tick == last.tick
      && Replayed(t.current.frames) == Some(ViewOf(last))
  }

  lemma KeyframeReplays(shot: Shot, recorded: nat)
    requires Keyframe(shot, recorded)
    ensures Replayed([FrameOf(shot, recorded)]) == Some(ViewOf(shot))
  {
  }

  lemma DeltaReplays(frames: seq<Recorded>, before: Shot, shot: Shot, recorded: nat)
    requires frames != [] && Replayed(frames) == Some(ViewOf(before))
    requires !Keyframe(shot, recorded) && shot.tiles == ApplyAll(before.tiles, shot.changes)
    ensures Replayed(frames + [FrameOf(shot, recorded)]) == Some(ViewOf(shot))
  {
    assert (frames + [FrameOf(shot, recorded)])[..|frames|] == frames;
  }

  lemma GrowsInOrder(frames: seq<Recorded>, f: Recorded)
    requires frames != [] && InOrder(frames) && frames[|frames| - 1].tick <= f.tick
    ensures InOrder(frames + [f])
  {
  }

  lemma StepInStep(start: Grid, shots: seq<Shot>, t: Tape, process: nat)
    requires shots != [] && Film(start, shots)
    requires t.begun && !t.finished && InStep(t, shots[..|shots| - 1])
    requires !Recording(t, process, |shots| - 1, shots[|shots| - 1]).0.aborted
    ensures InStep(Recording(t, process, |shots| - 1, shots[|shots| - 1]).0, shots)
  {
    var n := |shots| - 1;
    NextTape(t, process, shots[n], n);
    if Keyframe(shots[n], n) {
      KeyframeReplays(shots[n], n);
    } else {
      assert n > 0 && shots[..n][n - 1] == shots[n - 1];
      DeltaReplays(t.current.frames, shots[n - 1], shots[n], n);
      GrowsInOrder(t.current.frames, FrameOf(shots[n], n));
    }
  }

  lemma PickedSnoc(chunks: seq<Chunk>, last: Chunk, matchStart: nat, tick: nat)
    ensures Picked(chunks + [last], matchStart, tick)
         == if StartTick(last, matchStart) <= tick then Some(last) else Picked(chunks, matchStart, tick)
  {
    assert (chunks + [last])[..|chunks|] == chunks;
  }

  /** Reading depends on the frames of the chunks only, and a file without frames gives nothing. */
  lemma ReadsChunk(t: Tape, matchStart: nat, tick: nat)
    requires t.current.frames == [] ==> t.chunks == []
    ensures ReconstructedAt(Stored(t), matchStart, tick)
         == if t.current.frames == [] then None
            else if t.current.frames[0].tick <= tick then Replayed(Sorted(UpTo(t.current.frames, tick)))
            else ReconstructedAt(t.chunks, matchStart, tick)
  {
    PickedSnoc(t.chunks, t.current, matchStart, tick);
  }

  lemma UpToSnoc(frames: seq<Recorded>, f: Recorded, tick: nat)
    requires tick < f.tick
    ensures UpTo(frames + [f], tick) == UpTo(frames, tick)
  {
    assert (frames + [f])[..|frames|] == frames;
  }

  /** Before the new frame's tick, nothing changes: a new chunk is not picked, a longer one is cut back. */
  lemma EarlierUnchanged(t: Tape, process: nat, shot: Shot, recorded: nat, matchStart: nat, tick: nat)
    requires t.begun && !t.finished && !Recording(t, process, recorded, shot).0.aborted && tick < shot.tick
    requires t.current.frames == [] ==> t.chunks == []
    ensures ReconstructedAt(Stored(Recording(t, process, recorded, shot).0), matchStart, tick)
         == ReconstructedAt(Stored(t), matchStart, tick)
  {
    var r := Recording(t, process, recorded, shot).0;
    NextTape(t, process, shot, recorded);
    ReadsChunk(t, matchStart, tick);
    ReadsChunk(r, matchStart, tick);
    if t.current.frames != [] {
      PickedSnoc(t.chunks, t.current, matchStart, tick);
      UpToSnoc(t.current.frames, FrameOf(shot, recorded), tick);
    }
  }

  lemma WholeChunk(frames: seq<Recorded>, tick: nat)
    requires frames != [] && InOrder(frames) && frames[|frames| - 1].tick <= tick
    ensures frames[0].tick <= tick && Sorted(UpTo(frames, tick)) == frames
  {
    forall f | f in frames ensures f.tick <= tick {
      var i :| 0 <= i < |frames| && frames[i] == f;
    }
    UpToAll(frames, tick);
    SortedStays(frames);
  }

  /** From the new frame's tick on, the chunk in progress is picked whole. */
  lemma LaterIsLast(t: Tape, shots: seq<Shot>, matchStart: nat, tick: nat)
    requires shots != [] && InStep(t, shots) && shots[|shots| - 1].tick <= tick
    ensures ReconstructedAt(Stored(t), matchStart, tick) == Some(ViewOf(shots[|shots| - 1]))
  {
    ReadsChunk(t, matchStart, tick);
    WholeChunk(t.current.frames, tick);
  }

  lemma {:induction false} TapeInStep(start: Grid, shots: seq<Shot>, interludes: seq<Interlude>)
    requires |interludes| == |shots| && Film(start, shots) && !Recorder(shots, interludes).aborted
    ensures InStep(Recorder(shots, interludes), shots)
    ensures Recorder(shots, interludes).begun && !Recorder(shots, interludes).finished
    decreases |shots|
  {
    if shots != [] {
      var n := |shots| - 1;
      var t, process := RecorderStep(shots, interludes);
      TapeInStep(start, shots[..n], interludes[..n]);
      StepInStep(start, shots, t, process);
      NextTape(t, process, shots[n], n);
    }
  }

  /** Masks and events noted on the tape do not show in what is read back. */
  lemma NotesUnseen(t: Tape, b: Interlude, matchStart: nat, tick: nat)
    requires t.current.frames == [] ==> t.chunks == []
    ensures ReconstructedAt(Stored(NotedIn(t, b)), matchStart, tick) == ReconstructedAt(Stored(t), matchStart, tick)
  {
    ReadsChunk(t, matchStart, tick);
    ReadsChunk(NotedIn(t, b), matchStart, tick);
  }

  /**
   The round trip: whatever the other recorders of the process do, and whatever masks and events are noted before,
   between and after the shots, if this recording was not given up then for every tick the stored chunks rebuild
   exactly the world of the last recorded shot at or before that tick.
   */
  lemma RoundTrip(start: Grid, shots: seq<Shot>, interludes: seq<Interlude>, after: Interlude, matchStart: nat,
      tick: nat)
    requires |interludes| == |shots| && Film(start, shots) && !Recorder(shots, interludes).aborted
    ensures ReconstructedAt(Stored(NotedIn(Recorder(shots, interludes), after)), matchStart, tick)
        == ExpectedAt(shots, tick)
  {
    TapeInStep(start, shots, interludes);
    NotesUnseen(Recorder(shots, interludes), after, matchStart, tick);
    ShotsReadBack(start, shots, interludes, matchStart, tick);
  }

  lemma {:induction false} ShotsReadBack(start: Grid, shots: seq<Shot>, interludes: seq<Interlude>, matchStart: nat,
      tick: nat)
    requires |interludes| == |shots| && Film(start, shots) && !Recorder(shots, interludes).aborted
    ensures ReconstructedAt(Stored(Recorder(shots, interludes)), matchStart, tick) == ExpectedAt(shots, tick)
    decreases |shots|
  {
    if shots != [] {
      var n := |shots| - 1;
      var t, process := RecorderStep(shots, interludes);
      TapeInStep(start, shots[..n], interludes[..n]);
      if tick < shots[n].tick {
        ShotsReadBack(start, shots[..n], interludes[..n], matchStart, tick);
        NotesUnseen(Recorder(shots[..n], interludes[..n]), interludes[n], matchStart, tick);
        EarlierUnchanged(t, process, shots[n], n, matchStart, tick);
      } else {
        TapeInStep(start, shots, interludes);
        LaterIsLast(Recorder(shots, interludes), shots, matchStart, tick);
      }
    }
  }

  function Weight(shots: seq<Shot>): nat
    decreases |shots|
  {
    if shots == [] then 0 else Weight(shots[..|shots| - 1]) + shots[|shots| - 1].size
  }

  /** Every shot finds room: for itself in the match, and for its bytes beside those of the other recorders. */
  ghost predicate FindsRoom(shots: seq<Shot>, interludes: seq<Interlude>)
    requires |interludes| == |shots|
    decreases |shots|
  {
    shots != [] ==>
      var n := |shots| - 1;
      && FindsRoom(shots[..n], interludes[..n])
      && n < MATCH_FRAME_LIMIT
      && interludes[n].others + Weight(shots) <= PROCESS_SPOOL_LIMIT_BYTES
  }

  /** A recording is given up exactly when some shot finds no room, and until then it counts what it holds. */
  lemma {:induction false} KeptExactly(shots: seq<Shot>, interludes: seq<Interlude>)
    requires |interludes| == |shots|
    ensures !Recorder(shots, interludes).aborted <==> FindsRoom(shots, interludes)
    ensures
      var t := Recorder(shots, interludes);
      t.begun && !t.finished && (!t.aborted ==> t.frameCount == |shots| && t.spooled == Weight(shots))
    decreases |shots|
  {
    if shots != [] {
      var n := |shots| - 1;
      var t, process := RecorderStep(shots, interludes);
      KeptExactly(shots[..n], interludes[..n]);
    }
  }

  /** What `finish` stores is what the round trip is about. */
  lemma FinishStores(t: Tape, process: nat)
    requires t.begun && !t.aborted && !t.finished
    ensures Closed(t, process).2 == Stored(t)
    ensures Stored(t) != [] ==> Closed(t, process).1 == process && Closed(t, process).0.spooled == t.spooled
  {
  }

  // ---------------------------------------------------------------------------------------------
  // The shared byte budget

  /** All recorders of the process and the counter they share. */
  datatype Desk = Desk(tapes: seq<Tape>, process: nat)

  datatype Act =
    | New
    | Begin(id: nat)
    | Write(id: nat, frame: Recorded)
    | Note(id: nat, visibilities: seq<nat>, events: seq<nat>)
    | Finish(id: nat)
    | StoreEnded(id: nat)
    | GiveUp(id: nat)

  predicate Possible(d: Desk, a: Act) {
    a.New? || a.id < |d.tapes|
  }

  function Acted(d: Desk, a: Act): Desk
    requires Possible(d, a)
  {
    match a
    case New => Desk(d.tapes + [NEW_TAPE], d.process)
    case Begin(i) => Desk(d.tapes[i := d.tapes[i].(begun := true)], d.process)
    case Write(i, f) => var (t, p) := Written(d.tapes[i], d.process, f); Desk(d.tapes[i := t], p)
    case Note(i, v, e) => Desk(d.tapes[i := Noted(d.tapes[i], v, e)], d.process)
    case Finish(i) => var (t, p, _) := Closed(d.tapes[i], d.process); Desk(d.tapes[i := t], p)
    // the await in `finish` is over, well or badly; a tape that was never finished is not awaited
    case StoreEnded(i) =>
      if !d.tapes[i].finished then d
      else var (t, p) := Released(d.tapes[i], d.process); Desk(d.tapes[i := t], p)
    case GiveUp(i) => var (t, p) := Aborted(d.tapes[i], d.process); Desk(d.tapes[i := t], p)
  }

  function Total(tapes: seq<Tape>): nat
    decreases |tapes|
  {
    if tapes == [] then 0 else Total(tapes[..|tapes| - 1]) + tapes[|tapes| - 1].spooled
  }

  function Sizes(frames: seq<Recorded>): nat
    decreases |frames|
  {
    if frames == [] then 0 else Sizes(frames[..|frames| - 1]) + frames[|frames| - 1].size
  }

  /** The bytes a tape still holds. */
  function Bytes(t: Tape): nat {
    Sizes(Spliced(if t.finished then t.chunks else t.chunks + [t.current]))
  }

  ghost predicate Honest(t: Tape) {
    t.spooled == Bytes(t) && (t.aborted ==> t.spooled == 0) && (!t.begun ==> t.current.frames == [] && t.chunks == [])
  }

  /** The counter is the sum of what every tape holds, and within the limit. */
  ghost predicate Balanced(d: Desk) {
    && d.process == Total(d.tapes) <= PROCESS_SPOOL_LIMIT_BYTES
    && forall t :: t in d.tapes ==> Honest(t)
  }

  lemma {:induction false} TotalUpdate(tapes: seq<Tape>, i: nat, t: Tape)
    requires i < |tapes|
    ensures Total(tapes[i := t]) == Total(tapes) - tapes[i].spooled + t.spooled
    ensures tapes[i].spooled <= Total(tapes)
    decreases |tapes|
  {
    var n := |tapes| - 1;
    if i < n {
      TotalUpdate(tapes[..n], i, t);
      assert tapes[i := t][..n] == tapes[..n][i := t];
    } else {
      assert tapes[i := t][..n] == tapes[..n];
    }
  }

  lemma SizesSnoc(frames: seq<Recorded>, f: Recorded)
    ensures Sizes(frames + [f]) == Sizes(frames) + f.size
  {
    assert (frames + [f])[..|frames|] == frames;
  }

  lemma HoldsNothing()
    ensures Sizes(Spliced([EMPTY])) == 0 && Spliced([]) == []
  {
    SplicedSnoc([], EMPTY);
    assert [] + [EMPTY] == [EMPTY];
  }

  /** Cutting a chunk moves no bytes. */
  lemma RotateHonest(t: Tape)
    requires Honest(t) && !t.finished && t.begun
    ensures Honest(Rotated(t))
  {
    SplicedSnoc(t.chunks + [t.current], EMPTY);
    assert Spliced(t.chunks + [t.current]) + [] == Spliced(t.chunks + [t.current]);
  }

  lemma AddHonest(t: Tape, f: Recorded)
    requires Honest(t) && !t.finished && t.begun && !t.aborted
    ensures Honest(t.(current := t.current.(frames := t.current.frames + [f]),
                      frameCount := t.frameCount + 1, spooled := t.spooled + f.size))
  {
    var longer := t.current.(frames := t.current.frames + [f]);
    SplicedSnoc(t.chunks, t.current);
    SplicedSnoc(t.chunks, longer);
    SizesSnoc(Spliced(t.chunks + [t.current]), f);
    assert Spliced(t.chunks) + longer.frames == Spliced(t.chunks + [t.current]) + [f];
  }

  lemma WriteHonest(t: Tape, process: nat, f: Recorded)
    requires Honest(t) && t.spooled <= process <= PROCESS_SPOOL_LIMIT_BYTES
    ensures
      var (r, p) := Written(t, process, f);
      Honest(r) && p == process - t.spooled + r.spooled && p <= PROCESS_SPOOL_LIMIT_BYTES
  {
    if !t.aborted && !t.finished && t.begun {
      RotateHonest(t);
      AppendHonest(if f.full && t.current.frames != [] then Rotated(t) else t, process, f);
    }
  }

  /** Writing on, or giving up for lack of room. */
  lemma AppendHonest(t: Tape, process: nat, f: Recorded)
    requires Honest(t) && !t.finished && t.begun && !t.aborted && t.spooled <= process
    ensures
      var longer := t.(current := t.current.(frames := t.current.frames + [f]),
                       frameCount := t.frameCount + 1, spooled := t.spooled + f.size);
      var (r, p) := Aborted(t, process);
      Honest(longer) && Honest(r) && r.spooled == 0 && p == process - t.spooled
  {
    ReleaseHonest(t.(aborted := true), process);
    AddHonest(t, f);
  }

  lemma NoteHonest(t: Tape, visibilities: seq<nat>, events: seq<nat>)
    requires Honest(t)
    ensures Honest(Noted(t, visibilities, events)) && Noted(t, visibilities, events).spooled == t.spooled
  {
    SplicedSnoc(t.chunks, t.current);
    SplicedSnoc(t.chunks, Noted(t, visibilities, events).current);
  }

  lemma ReleaseHonest(t: Tape, process: nat)
    requires t.spooled <= process
    ensures
      var (r, p) := Released(t, process);
      Honest(r) && r.spooled == 0 && p == process - t.spooled
  {
    HoldsNothing();
  }

  lemma FinishHonest(t: Tape, process: nat)
    requires Honest(t) && t.spooled <= process
    ensures
      var (r, p, _) := Closed(t, process);
      Honest(r) && p == process - t.spooled + r.spooled && r.spooled <= t.spooled
  {
    ReleaseHonest(t, process);
    ReleaseHonest(t.(finished := true), process);
    SplicedSnoc(t.chunks, t.current);
    assert Spliced(t.chunks) + [] == Spliced(t.chunks);
  }

  lemma TapeReplaced(d: Desk, i: nat, t: Tape, process: nat)
    requires Balanced(d) && i < |d.tapes| && Honest(t)
    requires process == d.process - d.tapes[i].spooled + t.spooled <= PROCESS_SPOOL_LIMIT_BYTES
    ensures Balanced(Desk(d.tapes[i := t], process))
  {
    TotalUpdate(d.tapes, i, t);
  }

  lemma TapeFits(d: Desk, i: nat)
    requires Balanced(d) && i < |d.tapes|
    ensures Honest(d.tapes[i]) && d.tapes[i].spooled <= d.process
  {
    TotalUpdate(d.tapes, i, d.tapes[i]);
  }

  lemma NewBalanced(d: Desk)
    requires Balanced(d)
    ensures Balanced(Desk(d.tapes + [NEW_TAPE], d.process))
  {
    NewHonest();
    TotalSnoc(d.tapes, NEW_TAPE);
    forall t | t in d.tapes + [NEW_TAPE] ensures Honest(t) {
      assert t in d.tapes || t == NEW_TAPE;
    }
  }

  lemma NewHonest()
    ensures Honest(NEW_TAPE)
  {
    HoldsNothing();
    assert NEW_TAPE.chunks + [NEW_TAPE.current] == [EMPTY];
  }

  lemma TotalSnoc(tapes: seq<Tape>, t: Tape)
    ensures Total(tapes + [t]) == Total(tapes) + t.spooled
  {
    assert (tapes + [t])[..|tapes|] == tapes;
  }

  lemma ActBalanced(d: Desk, a: Act)
    requires Balanced(d) && Possible(d, a)
    ensures Balanced(Acted(d, a))
  {
    if a.New? {
      NewBalanced(d);
    } else {
      var t := d.tapes[a.id];
      TapeFits(d, a.id);
      match a {
        case Begin(i) =>
          TapeReplaced(d, i, t.(begun := true), d.process);
        case Write(i, f) =>
          WriteHonest(t, d.process, f);
          TapeReplaced(d, i, Written(t, d.process, f).0, Written(t, d.process, f).1);
        case Note(i, v, e) =>
          NoteHonest(t, v, e);
          TapeReplaced(d, i, Noted(t, v, e), d.process);
        case Finish(i) =>
          FinishHonest(t, d.process);
          TapeReplaced(d, i, Closed(t, d.process).0, Closed(t, d.process).1);
        case StoreEnded(i) =>
          ReleaseHonest(t, d.process);
          TapeReplaced(d, i, Released(t, d.process).0, Released(t, d.process).1);
        case GiveUp(i) =>
          ReleaseHonest(t.(aborted := true), d.process);
          TapeReplaced(d, i, Aborted(t, d.process).0, Aborted(t, d.process).1);
      }
    }
  }

  ghost predicate Acts(d: Desk, acts: seq<Act>, end: Desk)
    decreases |acts|
  {
    if acts == [] then end == d
    else Possible(d, acts[0]) && Acts(Acted(d, acts[0]), acts[1..], end)
  }

  /**
   Conservation over any number of concurrent recorders: the shared counter is always the sum of the bytes the
   unreleased recorders hold and never passes the limit.
   */
  lemma {:induction false} SpoolConserved(d: Desk, acts: seq<Act>, end: Desk)
    requires Balanced(d) && Acts(d, acts, end)
    ensures Balanced(end)
    decreases |acts|
  {
    if acts != [] {
      ActBalanced(d, acts[0]);
      SpoolConserved(Acted(d, acts[0]), acts[1..], end);
    }
  }

  /** The clamp never takes effect, and a second release returns nothing: bytes go back exactly once. */
  lemma ReturnedOnce(d: Desk, acts: seq<Act>, end: Desk, id: nat)
    requires Acts(Desk([], 0), acts, end) && id < |end.tapes|
    ensures
      var t := end.tapes[id];
      var (r, p) := Released(t, end.process);
      t.spooled <= end.process && p + t.spooled == end.process && Released(r, p) == (r, p)
  {
    SpoolConserved(Desk([], 0), acts, end);
    TotalUpdate(end.tapes, id, end.tapes[id]);
  }

  // ---------------------------------------------------------------------------------------------
  // Masks, events and keyframes of a recording

  function Events(chunks: seq<Chunk>): seq<nat>
    decreases |chunks|
  {
    if chunks == [] then [] else Events(chunks[..|chunks| - 1]) + chunks[|chunks| - 1].events
  }

  function Masks(chunks: seq<Chunk>): seq<nat>
    decreases |chunks|
  {
    if chunks == [] then [] else Masks(chunks[..|chunks| - 1]) + chunks[|chunks| - 1].visibilities
  }

  lemma NotesSnoc(chunks: seq<Chunk>, last: Chunk)
    ensures Events(chunks + [last]) == Events(chunks) + last.events
    ensures Masks(chunks + [last]) == Masks(chunks) + last.visibilities
  {
    assert (chunks + [last])[..|chunks|] == chunks;
  }

  /** What was noted of a tape lies in what it would store. */
  ghost predicate HasNotes(t: Tape, masks: seq<nat>, events: seq<nat>) {
    Events(Stored(t)) == events && Masks(Stored(t)) == masks
  }

  lemma StoredNotes(t: Tape)
    ensures Events(Stored(t)) == Events(t.chunks) + t.current.events
    ensures Masks(Stored(t)) == Masks(t.chunks) + t.current.visibilities
  {
    NotesSnoc(t.chunks, t.current);
    if t.current == EMPTY {
      assert Events(t.chunks) + [] == Events(t.chunks);
      assert Masks(t.chunks) + [] == Masks(t.chunks);
    }
  }

  lemma NotedHasNotes(t: Tape, masks: seq<nat>, events: seq<nat>, visibilities: seq<nat>, more: seq<nat>)
    requires HasNotes(t, masks, events) && !t.aborted && !t.finished
    ensures HasNotes(Noted(t, visibilities, more), masks + visibilities, events + more)
  {
    StoredNotes(t);
    StoredNotes(Noted(t, visibilities, more));
    Regrouped(Events(t.chunks), t.current.events, more);
    Regrouped(Masks(t.chunks), t.current.visibilities, visibilities);
  }

  lemma Regrouped(a: seq<nat>, b: seq<nat>, c: seq<nat>)
    ensures a + (b + c) == a + b + c
  {
  }

  lemma WrittenHasNotes(t: Tape, process: nat, f: Recorded)
    requires t.begun && !t.finished && !Written(t, process, f).0.aborted
    ensures Events(Stored(Written(t, process, f).0)) == Events(Stored(t))
    ensures Masks(Stored(Written(t, process, f).0)) == Masks(Stored(t))
  {
    var x := Written(t, process, f).0;
    StoredNotes(t);
    StoredNotes(x);
    WrittenMovesNotes(t, process, f);
    NotesSnoc(t.chunks, t.current);
  }

  /** A write leaves the notes in the chunk in progress, or closes that chunk with them. */
  lemma WrittenMovesNotes(t: Tape, process: nat, f: Recorded)
    requires t.begun && !t.finished && !Written(t, process, f).0.aborted
    ensures
      var x := Written(t, process, f).0;
      if f.full && t.current.frames != []
      then x.chunks == t.chunks + [t.current] && x.current.events == [] && x.current.visibilities == []
      else x.chunks == t.chunks && x.current.events == t.current.events
           && x.current.visibilities == t.current.visibilities
  {
  }

  /** The masks and events of a recording, in the order in which they were noted; each shot notes its own mask. */
  function AllMasks(shots: seq<Shot>, interludes: seq<Interlude>): seq<nat>
    requires |interludes| == |shots|
    decreases |shots|
  {
    if shots == [] then []
    else
      var n := |shots| - 1;
      AllMasks(shots[..n], interludes[..n]) + interludes[n].visibilities + [shots[n].tick]
  }

  function AllEvents(interludes: seq<Interlude>): seq<nat>
    decreases |interludes|
  {
    if interludes == [] then [] else AllEvents(interludes[..|interludes| - 1]) + interludes[|interludes| - 1].events
  }

  /** Nothing that was noted is lost or moved: the stored chunks joined have every mask and every event in order. */
  lemma {:induction false} NotesAreStored(shots: seq<Shot>, interludes: seq<Interlude>)
    requires |interludes| == |shots| && !Recorder(shots, interludes).aborted
    ensures HasNotes(Recorder(shots, interludes), AllMasks(shots, interludes), AllEvents(interludes))
    decreases |shots|
  {
    if shots == [] {
      assert Stored(Recorder(shots, interludes)) == [];
    } else {
      var n := |shots| - 1;
      var before := Recorder(shots[..n], interludes[..n]);
      var t, process := RecorderStep(shots, interludes);
      KeptExactly(shots[..n], interludes[..n]);
      NotesAreStored(shots[..n], interludes[..n]);
      NotedHasNotes(before, AllMasks(shots[..n], interludes[..n]), AllEvents(interludes[..n]),
                    interludes[n].visibilities, interludes[n].events);
      ShotHasNotes(t, process, shots[n], n, AllMasks(shots[..n], interludes[..n]) + interludes[n].visibilities,
                   AllEvents(interludes));
    }
  }

  lemma ShotHasNotes(t: Tape, process: nat, shot: Shot, recorded: nat, masks: seq<nat>, events: seq<nat>)
    requires HasNotes(t, masks, events) && t.begun && !t.finished && !Recording(t, process, recorded, shot).0.aborted
    ensures HasNotes(Recording(t, process, recorded, shot).0, masks + [shot.tick], events)
  {
    var w := Written(t, process, FrameOf(shot, recorded)).0;
    WrittenHasNotes(t, process, FrameOf(shot, recorded));
    NotedHasNotes(w, masks, events, [shot.tick], []);
    assert events + [] == events;
  }

  /** Each shot is one frame at its tick: a keyframe exactly at the end and at every sixtieth frame. */
  lemma {:induction false} FramesAreShots(shots: seq<Shot>, i: nat)
    requires i < |shots|
    ensures
      var f := Frames(shots)[i];
      f.tick == shots[i].tick && f.size == shots[i].size && (f.full <==> shots[i].final || i % 60 == 0)
    decreases |shots|
  {
    if i < |shots| - 1 {
      FramesAreShots(shots[..|shots| - 1], i);
    }
  }
}
