/**
 The replay analyser of client/src/replay/analysis.ts: binary searches over ticks, the states carried from frame
 to frame, the tagger's segments, and the prefix sums of tagger time.
 */
module ReplayAnalysis {
  import opened Wrappers

  type PlayerId = nat

  ghost predicate Sorted(ticks: seq<int>) {
    forall i, j :: 0 <= i < j < |ticks| ==> ticks[i] <= ticks[j]
  }

  /** The last index whose tick is at most `value`, or -1. */
  method LastAtOrBefore(ticks: seq<int>, value: int) returns (found: int)
    requires Sorted(ticks)
    ensures -1 <= found < |ticks|
    ensures forall i :: 0 <= i < |ticks| ==> (ticks[i] <= value <==> i <= found)
  {
    var lo, hi := 0, |ticks| - 1;
    found := -1;
    while lo <= hi
      invariant 0 <= lo <= hi + 1 <= |ticks| && found == lo - 1
      invariant forall i :: 0 <= i < lo ==> ticks[i] <= value
      invariant forall i :: hi < i < |ticks| ==> ticks[i] > value
      decreases hi - lo
    {
      var mid := (lo + hi) / 2;
      if ticks[mid] <= value {
        found := mid;
        lo := mid + 1;
      } else {
        hi := mid - 1;
      }
    }
  }

  /** The first index whose tick is at least `value`, or the length. */
  method FirstAtOrAfter(ticks: seq<int>, value: int) returns (lo: nat)
    requires Sorted(ticks)
    ensures lo <= |ticks|
    ensures forall i :: 0 <= i < |ticks| ==> (ticks[i] >= value <==> i >= lo)
  {
    lo := 0;
    var hi := |ticks|;
    while lo < hi
      invariant lo <= hi <= |ticks|
      invariant forall i :: 0 <= i < lo ==> ticks[i] < value
      invariant forall i :: hi <= i < |ticks| ==> ticks[i] >= value
    {
      var mid := (lo + hi) / 2;
      if ticks[mid] < value {
        lo := mid + 1;
      } else {
        hi := mid;
      }
    }
  }

  /** The two searches meet: what follows the last index before a tick is the first from that tick on. */
  lemma SearchesMeet(ticks: seq<int>, value: int, before: int, after: nat)
    requires -1 <= before < |ticks| && after <= |ticks|
    requires forall i :: 0 <= i < |ticks| ==> (ticks[i] <= value - 1 <==> i <= before)
    requires forall i :: 0 <= i < |ticks| ==> (ticks[i] >= value <==> i >= after)
    ensures before + 1 == after
  {
    if 0 <= before {
      assert ticks[before] <= value - 1;
    }
    if 0 < after {
      assert ticks[after - 1] < value;
    }
  }

  // ---------------------------------------------------------------------------------------------
  // States

  datatype Sample = Sample(id: PlayerId, isTagger: bool)

  /** A recorded frame; without a player list it repeats the one before. */
  datatype Frame = Frame(tick: int, players: Option<seq<Sample>>)

  datatype State = State(tick: int, players: seq<Sample>)

  function Inserted(sorted: seq<Sample>, s: Sample): seq<Sample>
    decreases |sorted|
  {
    if sorted == [] || sorted[|sorted| - 1].id <= s.id then sorted + [s]
    else Inserted(sorted[..|sorted| - 1], s) + [sorted[|sorted| - 1]]
  }

  function ById(players: seq<Sample>): seq<Sample>
    decreases |players|
  {
    if players == [] then [] else Inserted(ById(players[..|players| - 1]), players[|players| - 1])
  }

  /** The last list given up to a frame. */
  function Carried(frames: seq<Frame>): seq<Sample>
    decreases |frames|
  {
    if frames == [] then []
    else
      var last := frames[|frames| - 1];
      if last.players.Some? then ById(last.players.value) else Carried(frames[..|frames| - 1])
  }

  method BuildStates(frames: seq<Frame>) returns (states: seq<State>)
    ensures |states| == |frames|
    ensures forall i :: 0 <= i < |frames| ==> states[i] == State(frames[i].tick, Carried(frames[..i + 1]))
  {
    states := [];
    var carried := [];
    var i := 0;
    while i < |frames|
      invariant i <= |frames| && |states| == i && carried == Carried(frames[..i])
      invariant forall j :: 0 <= j < i ==> states[j] == State(frames[j].tick, Carried(frames[..j + 1]))
    {
      var frame := frames[i];
      assert frames[..i + 1][..i] == frames[..i];
      if frame.players.Some? {
        carried := ById(frame.players.value);
      }
      states := states + [State(frame.tick, carried)];
      i := i + 1;
    }
  }

  // ---------------------------------------------------------------------------------------------
  // Tagger segments

  datatype TaggerSegment = TaggerSegment(playerId: PlayerId, startFrame: nat, endFrame: nat, startTick: int,
      endTick: int)

  /** The first tagger listed. */
  function Tagger(players: seq<Sample>): (r: Option<PlayerId>)
    ensures r.Some? <==> exists i :: 0 <= i < |players| && players[i].isTagger
    ensures r.Some? ==> exists i :: 0 <= i < |players| && players[i].isTagger && players[i].id == r.value
    decreases |players|
  {
    if players == [] then None
    else if players[0].isTagger then Some(players[0].id)
    else
      assert forall i :: 0 <= i < |players| - 1 ==> players[1..][i] == players[i + 1];
      Tagger(players[1..])
  }

  function EndTick(marks: seq<Mark>, i: nat): int
    requires i < |marks|
  {
    if i + 1 < |marks| then marks[i + 1].tick else marks[i].tick
  }

  /** How long frame `i` stands on screen. */
  function Gap(marks: seq<Mark>, i: nat): int
    requires i < |marks|
  {
    EndTick(marks, i) - marks[i].tick
  }

  /** The segments of the first `n` frames. */
  function Segments(marks: seq<Mark>, n: nat): seq<TaggerSegment>
    requires n <= |marks|
  {
    if n == 0 then []
    else
      NextSegments(marks, Segments(marks, n - 1), n - 1)
  }

  /** The last segment goes on: the same tagger, and no frame in between. */
  predicate GoesOn(marks: seq<Mark>, segs: seq<TaggerSegment>, i: nat)
    requires i < |marks|
  {
    segs != [] && Some(segs[|segs| - 1].playerId) == marks[i].tagger && segs[|segs| - 1].endFrame == i
  }

  function Extended(marks: seq<Mark>, last: TaggerSegment, i: nat): TaggerSegment
    requires i < |marks|
  {
    last.(endFrame := i + 1, endTick := EndTick(marks, i))
  }

  function Started(marks: seq<Mark>, tagger: PlayerId, i: nat): TaggerSegment
    requires i < |marks|
  {
    TaggerSegment(tagger, i, i + 1, marks[i].tick, EndTick(marks, i))
  }

  function NextSegments(marks: seq<Mark>, segs: seq<TaggerSegment>, i: nat): seq<TaggerSegment>
    requires i < |marks|
  {
    var tagger := marks[i].tagger;
    if GoesOn(marks, segs, i) then segs[..|segs| - 1] + [Extended(marks, segs[|segs| - 1], i)]
    else if tagger.Some? then segs + [Started(marks, tagger.value, i)]
    else segs
  }

  /** What the segments depend on: each frame's tick and first tagger. */
  datatype Mark = Mark(tick: int, tagger: Option<PlayerId>)

  function Marks(states: seq<State>): (marks: seq<Mark>)
    ensures |marks| == |states|
    ensures forall i :: 0 <= i < |states| ==> marks[i] == Mark(states[i].tick, Tagger(states[i].players))
  {
    seq(|states|, i requires 0 <= i < |states| => Mark(states[i].tick, Tagger(states[i].players)))
  }

  method TaggerSegments(states: seq<State>) returns (segs: seq<TaggerSegment>)
    ensures segs == Segments(Marks(states), |states|)
    ensures WellCut(Marks(states), segs, |states|)
  {
    segs := CutSegments(states);
    SegmentsWellCut(Marks(states), |states|);
  }

  method CutSegments(states: seq<State>) returns (segs: seq<TaggerSegment>)
    ensures segs == Segments(Marks(states), |states|)
  {
    ghost var marks := Marks(states);
    segs := [];
    var i := 0;
    while i < |states|
      invariant i <= |states| && segs == Segments(marks, i)
    {
      segs := AddSegment(states, marks, segs, i);
      i := i + 1;
    }
  }

  /** The loop body: the segments of one frame more. */
  method AddSegment(states: seq<State>, ghost marks: seq<Mark>, segs: seq<TaggerSegment>, i: nat)
    returns (after: seq<TaggerSegment>)
    requires i < |states| && marks == Marks(states) && segs == Segments(marks, i)
    ensures after == Segments(marks, i + 1)
  {
    var tagger := Tagger(states[i].players);
    var endTick := if i + 1 < |states| then states[i + 1].tick else states[i].tick;
    var n := |segs|;
    if n > 0 && Some(segs[n - 1].playerId) == tagger && segs[n - 1].endFrame == i {
      after := segs[..n - 1] + [segs[n - 1].(endFrame := i + 1, endTick := endTick)];
    } else if tagger.Some? {
      after := segs + [TaggerSegment(tagger.value, i, i + 1, states[i].tick, endTick)];
    } else {
      after := segs;
    }
  }

  ghost predicate Fits(marks: seq<Mark>, seg: TaggerSegment, n: nat)
    requires n <= |marks|
  {
    && seg.startFrame < seg.endFrame <= n
    && seg.startTick == marks[seg.startFrame].tick && seg.endTick == EndTick(marks, seg.endFrame - 1)
    && forall f :: seg.startFrame <= f < seg.endFrame ==> marks[f].tagger == Some(seg.playerId)
  }

  ghost predicate Covered(segs: seq<TaggerSegment>, f: nat) {
    exists j :: 0 <= j < |segs| && segs[j].startFrame <= f < segs[j].endFrame
  }

  /**
   Segments in order and disjoint; each is one player's and has its frames' ticks; together they are exactly the
   frames that have a tagger; and where two touch the player changes.
   */
  ghost predicate WellCut(marks: seq<Mark>, segs: seq<TaggerSegment>, n: nat)
    requires n <= |marks|
  {
    AllFit(marks, segs, n) && Disjoint(segs) && CoversExactly(marks, segs, n)
  }

  ghost predicate AllFit(marks: seq<Mark>, segs: seq<TaggerSegment>, n: nat)
    requires n <= |marks|
  {
    forall j :: 0 <= j < |segs| ==> Fits(marks, segs[j], n)
  }

  ghost predicate Disjoint(segs: seq<TaggerSegment>) {
    && (forall j, k :: 0 <= j < k < |segs| ==> segs[j].endFrame <= segs[k].startFrame)
    && (forall j, k ::
        0 <= j < k < |segs| && segs[j].endFrame == segs[k].startFrame ==> segs[j].playerId != segs[k].playerId)
  }

  ghost predicate CoversExactly(marks: seq<Mark>, segs: seq<TaggerSegment>, n: nat)
    requires n <= |marks|
  {
    forall f {:trigger Covered(segs, f)} :: 0 <= f < n ==> (marks[f].tagger.Some? <==> Covered(segs, f))
  }

  lemma CoverKept(segs: seq<TaggerSegment>, longer: seq<TaggerSegment>, f: nat)
    requires |segs| <= |longer|
    requires forall j ::
        0 <= j < |segs| ==> longer[j].startFrame == segs[j].startFrame && segs[j].endFrame <= longer[j].endFrame
    ensures Covered(segs, f) ==> Covered(longer, f)
  {
    if Covered(segs, f) {
      var j :| 0 <= j < |segs| && segs[j].startFrame <= f < segs[j].endFrame;
      assert longer[j].startFrame <= f < longer[j].endFrame;
    }
  }

  /** A new segment covers its frame and nothing else. */
  lemma PushCovers(segs: seq<TaggerSegment>, seg: TaggerSegment, i: nat, f: nat)
    requires seg.startFrame == i && seg.endFrame == i + 1
    ensures Covered(segs + [seg], f) <==> Covered(segs, f) || f == i
  {
    var longer := segs + [seg];
    CoverKept(segs, longer, f);
    assert longer[|segs|].startFrame <= i < longer[|segs|].endFrame;
    if Covered(longer, f) && f != i {
      var j :| 0 <= j < |longer| && longer[j].startFrame <= f < longer[j].endFrame;
      assert segs[j].startFrame <= f < segs[j].endFrame;
    }
  }

  lemma FitsLater(marks: seq<Mark>, segs: seq<TaggerSegment>, i: nat)
    requires i < |marks| && AllFit(marks, segs, i)
    ensures AllFit(marks, segs, i + 1)
    ensures forall j :: 0 <= j < |segs| ==> segs[j].startFrame < segs[j].endFrame <= i
  {
    forall j | 0 <= j < |segs| ensures Fits(marks, segs[j], i + 1) && segs[j].startFrame < segs[j].endFrame <= i {
      assert Fits(marks, segs[j], i);
    }
  }

  lemma PushDisjoint(segs: seq<TaggerSegment>, seg: TaggerSegment)
    requires Disjoint(segs)
    requires forall j :: 0 <= j < |segs| ==> segs[j].startFrame < segs[j].endFrame <= seg.startFrame
    requires segs != [] && segs[|segs| - 1].endFrame == seg.startFrame ==> segs[|segs| - 1].playerId != seg.playerId
    ensures Disjoint(segs + [seg])
  {
    var longer := segs + [seg];
    forall j, k | 0 <= j < k < |longer|
      ensures longer[j].endFrame <= longer[k].startFrame
      ensures longer[j].endFrame == longer[k].startFrame ==> longer[j].playerId != longer[k].playerId
    {
      if k == |segs| && j < |segs| - 1 {
        assert segs[j].endFrame <= segs[|segs| - 1].startFrame;
      }
    }
  }

  lemma PushWellCut(marks: seq<Mark>, segs: seq<TaggerSegment>, i: nat)
    requires i < |marks| && WellCut(marks, segs, i) && marks[i].tagger.Some? && !GoesOn(marks, segs, i)
    ensures WellCut(marks, segs + [Started(marks, marks[i].tagger.value, i)], i + 1)
  {
    var seg := Started(marks, marks[i].tagger.value, i);
    FitsLater(marks, segs, i);
    assert Fits(marks, seg, i + 1);
    PushDisjoint(segs, seg);
    PushCoverage(marks, segs, seg, i);
  }

  lemma PushCoverage(marks: seq<Mark>, segs: seq<TaggerSegment>, seg: TaggerSegment, i: nat)
    requires i < |marks| && CoversExactly(marks, segs, i) && marks[i].tagger.Some?
    requires seg.startFrame == i && seg.endFrame == i + 1
    ensures CoversExactly(marks, segs + [seg], i + 1)
  {
    forall f | 0 <= f < i + 1 ensures marks[f].tagger.Some? <==> Covered(segs + [seg], f) {
      PushCovers(segs, seg, i, f);
    }
  }

  /** The last segment made longer covers one frame more. */
  lemma ExtendCovers(marks: seq<Mark>, segs: seq<TaggerSegment>, i: nat, f: nat)
    requires i < |marks| && segs != [] && segs[|segs| - 1].startFrame <= segs[|segs| - 1].endFrame == i
    ensures Covered(segs[..|segs| - 1] + [Extended(marks, segs[|segs| - 1], i)], f) <==> Covered(segs, f) || f == i
  {
    var n := |segs| - 1;
    var longer := segs[..n] + [Extended(marks, segs[n], i)];
    CoverKept(segs, longer, f);
    assert longer[n].startFrame <= i < longer[n].endFrame;
    if Covered(longer, f) && f != i {
      var j :| 0 <= j < |longer| && longer[j].startFrame <= f < longer[j].endFrame;
      assert segs[j].startFrame <= f < segs[j].endFrame;
    }
  }

  lemma ExtendFits(marks: seq<Mark>, segs: seq<TaggerSegment>, i: nat)
    requires i < |marks| && AllFit(marks, segs, i) && GoesOn(marks, segs, i)
    ensures AllFit(marks, segs[..|segs| - 1] + [Extended(marks, segs[|segs| - 1], i)], i + 1)
  {
    FitsLater(marks, segs, i);
    assert Fits(marks, segs[|segs| - 1], i);
  }

  lemma ExtendDisjoint(marks: seq<Mark>, segs: seq<TaggerSegment>, i: nat)
    requires i < |marks| && segs != [] && Disjoint(segs)
    ensures Disjoint(segs[..|segs| - 1] + [Extended(marks, segs[|segs| - 1], i)])
  {
  }

  lemma ExtendWellCut(marks: seq<Mark>, segs: seq<TaggerSegment>, i: nat)
    requires i < |marks| && WellCut(marks, segs, i) && GoesOn(marks, segs, i)
    ensures WellCut(marks, segs[..|segs| - 1] + [Extended(marks, segs[|segs| - 1], i)], i + 1)
  {
    ExtendFits(marks, segs, i);
    ExtendDisjoint(marks, segs, i);
    assert Fits(marks, segs[|segs| - 1], i);
    ExtendCoverage(marks, segs, i);
  }

  lemma ExtendCoverage(marks: seq<Mark>, segs: seq<TaggerSegment>, i: nat)
    requires i < |marks| && CoversExactly(marks, segs, i) && GoesOn(marks, segs, i)
    requires segs[|segs| - 1].startFrame <= i
    ensures CoversExactly(marks, segs[..|segs| - 1] + [Extended(marks, segs[|segs| - 1], i)], i + 1)
  {
    var longer := segs[..|segs| - 1] + [Extended(marks, segs[|segs| - 1], i)];
    forall f | 0 <= f < i + 1 ensures marks[f].tagger.Some? <==> Covered(longer, f) {
      ExtendCovers(marks, segs, i, f);
    }
  }

  lemma SkipWellCut(marks: seq<Mark>, segs: seq<TaggerSegment>, i: nat)
    requires i < |marks| && WellCut(marks, segs, i) && marks[i].tagger.None?
    ensures WellCut(marks, segs, i + 1)
  {
    FitsLater(marks, segs, i);
    assert !Covered(segs, i);
  }

  lemma {:induction false} SegmentsWellCut(marks: seq<Mark>, n: nat)
    requires n <= |marks|
    ensures WellCut(marks, Segments(marks, n), n)
  {
    var segs := Segments(marks, n);
    if n == 0 {
      NoSegmentsWellCut(marks);
    } else {
      var i := n - 1;
      assert WellCut(marks, segs, i + 1) by {
        SegmentsWellCut(marks, i);
        OneMoreWellCut(marks, i);
      }
    }
  }

  lemma NoSegmentsWellCut(marks: seq<Mark>)
    ensures WellCut(marks, Segments(marks, 0), 0)
  {
  }

  lemma OneMoreWellCut(marks: seq<Mark>, i: nat)
    requires i < |marks| && WellCut(marks, Segments(marks, i), i)
    ensures WellCut(marks, Segments(marks, i + 1), i + 1)
  {
    NextWellCut(marks, Segments(marks, i), i);
  }

  lemma NextWellCut(marks: seq<Mark>, segs: seq<TaggerSegment>, i: nat)
    requires i < |marks| && WellCut(marks, segs, i)
    ensures WellCut(marks, NextSegments(marks, segs, i), i + 1)
  {
    if GoesOn(marks, segs, i) {
      ExtendWellCut(marks, segs, i);
    } else if marks[i].tagger.Some? {
      PushWellCut(marks, segs, i);
    } else {
      SkipWellCut(marks, segs, i);
    }
  }

  // ---------------------------------------------------------------------------------------------
  // Tagger time

  /** Is this player a tagger, going by its first sample? */
  function IsTagger(players: seq<Sample>, id: PlayerId): bool
    decreases |players|
  {
    players != [] && if players[0].id == id then players[0].isTagger else IsTagger(players[1..], id)
  }

  function TicksAt(states: seq<State>, id: PlayerId, i: nat): int
    requires i < |states|
  {
    if i == 0 then 0
    else
      TicksAt(states, id, i - 1)
      + if IsTagger(states[i - 1].players, id) then states[i].tick - states[i - 1].tick else 0
  }

  /** The prefix sums of every participant, frame by frame. */
  method TaggerTicks(states: seq<State>, participants: seq<PlayerId>) returns (ticks: map<PlayerId, seq<int>>)
    ensures forall id :: id in ticks <==> id in participants
    ensures forall id :: id in ticks ==> |ticks[id]| == |states|
    ensures forall id, i :: id in ticks && 0 <= i < |states| ==> ticks[id][i] == TicksAt(states, id, i)
  {
    ticks := map id | id in participants :: [];
    var i := 0;
    while i < |states|
      invariant i <= |states|
      invariant forall id :: id in ticks <==> id in participants
      invariant forall id :: id in ticks ==> Filled(states, id, ticks[id], i)
    {
      ticks := AddFrame(states, participants, ticks, i);
      i := i + 1;
    }
  }

  ghost predicate Filled(states: seq<State>, id: PlayerId, t: seq<int>, n: nat) {
    |t| == n <= |states| && forall i :: 0 <= i < n ==> t[i] == TicksAt(states, id, i)
  }

  /** The inner loop: one frame for every participant; a participant listed twice is filled once. */
  method AddFrame(states: seq<State>, participants: seq<PlayerId>, ticks: map<PlayerId, seq<int>>, i: nat)
    returns (after: map<PlayerId, seq<int>>)
    requires i < |states|
    requires forall id :: id in ticks <==> id in participants
    requires forall id :: id in ticks ==> Filled(states, id, ticks[id], i)
    ensures forall id :: id in after <==> id in participants
    ensures forall id :: id in after ==> Filled(states, id, after[id], i + 1)
  {
    after := ticks;
    var k := 0;
    while k < |participants|
      invariant k <= |participants|
      invariant forall id :: id in after <==> id in participants
      invariant forall id :: id in after ==> Filled(states, id, after[id], if id in participants[..k] then i + 1 else i)
    {
      var id := participants[k];
      assert participants[..k + 1] == participants[..k] + [id];
      var before := if i > 0 then after[id][i - 1] else 0;
      var gained := if i > 0 && IsTagger(states[i - 1].players, id) then states[i].tick - states[i - 1].tick else 0;
      after := after[id := after[id][..i] + [before + gained]];
      k := k + 1;
    }
    assert participants[..k] == participants;
  }

  /** The ticks of one player's segments together. */
  function Length(segs: seq<TaggerSegment>, id: PlayerId): int
    decreases |segs|
  {
    if segs == [] then 0
    else
      var last := segs[|segs| - 1];
      Length(segs[..|segs| - 1], id) + if last.playerId == id then last.endTick - last.startTick else 0
  }

  /** The ticks of the frames among the first `n` whose first tagger is this player. */
  function Held(marks: seq<Mark>, id: PlayerId, n: nat): int
    requires n <= |marks|
  {
    if n == 0 then 0
    else Held(marks, id, n - 1) + if marks[n - 1].tagger == Some(id) then Gap(marks, n - 1) else 0
  }

  /** The ticks of the frames in which this player is a tagger behind another. */
  function Hidden(states: seq<State>, id: PlayerId, n: nat): int
    requires n <= |states|
  {
    if n == 0 then 0
    else
      Hidden(states, id, n - 1)
      + var players := states[n - 1].players;
        if IsTagger(players, id) && Tagger(players) != Some(id) then Gap(Marks(states), n - 1) else 0
  }

  lemma LengthSnoc(segs: seq<TaggerSegment>, last: TaggerSegment, id: PlayerId)
    ensures Length(segs + [last], id)
         == Length(segs, id) + if last.playerId == id then last.endTick - last.startTick else 0
  {
    assert (segs + [last])[..|segs|] == segs;
  }

  /** Extending a segment by a frame, or starting one, adds that frame's time to its player. */
  lemma NextLength(marks: seq<Mark>, segs: seq<TaggerSegment>, i: nat, id: PlayerId)
    requires i < |marks| && (segs != [] ==> Fits(marks, segs[|segs| - 1], i))
    ensures Length(NextSegments(marks, segs, i), id)
         == Length(segs, id) + if marks[i].tagger == Some(id) then Gap(marks, i) else 0
  {
    var tagger := marks[i].tagger;
    if GoesOn(marks, segs, i) {
      var last := segs[|segs| - 1];
      assert Fits(marks, last, i) && last.endTick == marks[i].tick;
      LengthSnoc(segs[..|segs| - 1], Extended(marks, last, i), id);
    } else if tagger.Some? {
      LengthSnoc(segs, Started(marks, tagger.value, i), id);
    }
  }

  lemma LastFits(marks: seq<Mark>, n: nat)
    requires n <= |marks|
    ensures var segs := Segments(marks, n); segs != [] ==> Fits(marks, segs[|segs| - 1], n)
  {
    SegmentsWellCut(marks, n);
  }

  lemma {:induction false} LengthIsHeld(marks: seq<Mark>, id: PlayerId, n: nat)
    requires n <= |marks|
    ensures Length(Segments(marks, n), id) == Held(marks, id, n)
  {
    if n > 0 {
      var i := n - 1;
      LengthIsHeld(marks, id, i);
      assert Held(marks, id, n) == Held(marks, id, i) + if marks[i].tagger == Some(id) then Gap(marks, i) else 0;
      assert Length(Segments(marks, n), id) == Held(marks, id, n) by {
        LengthGrows(marks, id, i);
      }
    }
  }

  lemma LengthGrows(marks: seq<Mark>, id: PlayerId, i: nat)
    requires i < |marks|
    ensures Length(Segments(marks, i + 1), id)
         == Length(Segments(marks, i), id) + if marks[i].tagger == Some(id) then Gap(marks, i) else 0
  {
    LastFits(marks, i);
    NextLength(marks, Segments(marks, i), i, id);
  }

  ghost predicate UniqueIds(players: seq<Sample>) {
    forall i, j :: 0 <= i < j < |players| ==> players[i].id != players[j].id
  }

  lemma {:induction false} TaggerSampled(players: seq<Sample>, i: nat)
    requires UniqueIds(players) && i < |players|
    ensures IsTagger(players, players[i].id) == players[i].isTagger
    decreases |players|
  {
    if i > 0 {
      assert players[1..][i - 1] == players[i];
      TaggerSampled(players[1..], i - 1);
    }
  }

  /** The first tagger is a tagger. */
  lemma TaggerIsTagger(players: seq<Sample>)
    requires UniqueIds(players) && Tagger(players).Some?
    ensures IsTagger(players, Tagger(players).value)
  {
    var i :| 0 <= i < |players| && players[i].isTagger && players[i].id == Tagger(players).value;
    TaggerSampled(players, i);
  }

  lemma {:induction false} TicksAreHeld(states: seq<State>, id: PlayerId, i: nat)
    requires i < |states| && forall f :: 0 <= f < |states| ==> UniqueIds(states[f].players)
    ensures TicksAt(states, id, i) == Held(Marks(states), id, i) + Hidden(states, id, i)
  {
    if i > 0 {
      TicksAreHeld(states, id, i - 1);
      if Tagger(states[i - 1].players) == Some(id) {
        TaggerIsTagger(states[i - 1].players);
      }
    }
  }

  /**
   A player's final tagger time is the length of its segments plus the time it spent as a tagger behind another
   one in the list: the two agree exactly when there is no such time.
   */
  lemma SegmentsAgainstPrefixSums(states: seq<State>, id: PlayerId)
    requires states != [] && forall f :: 0 <= f < |states| ==> UniqueIds(states[f].players)
    ensures
      var n := |states|;
      && TicksAt(states, id, n - 1) == Length(Segments(Marks(states), n), id) + Hidden(states, id, n)
      && (TicksAt(states, id, n - 1) == Length(Segments(Marks(states), n), id) <==> Hidden(states, id, n) == 0)
  {
    var n := |states|;
    TicksAreHeld(states, id, n - 1);
    LengthIsHeld(Marks(states), id, n);
    assert Gap(Marks(states), n - 1) == 0;
  }

  ghost predicate OneTagger(players: seq<Sample>) {
    forall i, j :: 0 <= i < j < |players| ==> !(players[i].isTagger && players[j].isTagger)
  }

  lemma {:induction false} TaggerFound(players: seq<Sample>, id: PlayerId)
    requires IsTagger(players, id)
    ensures exists i :: 0 <= i < |players| && players[i].isTagger && players[i].id == id
    decreases |players|
  {
    if players[0].id != id {
      TaggerFound(players[1..], id);
      var i :| 0 <= i < |players| - 1 && players[1..][i].isTagger && players[1..][i].id == id;
      assert players[i + 1].isTagger;
    } else {
      assert players[0].isTagger;
    }
  }

  lemma {:induction false} NothingHidden(states: seq<State>, id: PlayerId, n: nat)
    requires n <= |states| && forall f :: 0 <= f < |states| ==> OneTagger(states[f].players)
    ensures Hidden(states, id, n) == 0
  {
    if n > 0 {
      NothingHidden(states, id, n - 1);
      var players := states[n - 1].players;
      if IsTagger(players, id) {
        TaggerFound(players, id);
        var i :| 0 <= i < |players| && players[i].isTagger && players[i].id == id;
        var j :| 0 <= j < |players| && players[j].isTagger && players[j].id == Tagger(players).value;
        assert i == j;
      }
    }
  }

  /** With at most one tagger per frame, each player's segments add up to its final prefix sum. */
  lemma OneTaggerAgrees(states: seq<State>, id: PlayerId)
    requires states != []
    requires forall f :: 0 <= f < |states| ==> UniqueIds(states[f].players) && OneTagger(states[f].players)
    ensures TicksAt(states, id, |states| - 1) == Length(Segments(Marks(states), |states|), id)
  {
    SegmentsAgainstPrefixSums(states, id);
    NothingHidden(states, id, |states|);
  }

  /** A tagger listed behind another one. */
  ghost predicate Behind(players: seq<Sample>, id: PlayerId) {
    exists i, j :: 0 <= i < j < |players| && players[i].isTagger && players[j].isTagger && players[j].id == id
  }

  lemma {:induction false} TaggerOrBehind(players: seq<Sample>, id: PlayerId)
    requires UniqueIds(players)
    ensures Behind(players, id) <==> IsTagger(players, id) && Tagger(players) != Some(id)
    decreases |players|
  {
    if players != [] {
      TaggerOrBehind(players[1..], id);
      BehindTail(players, id);
      if IsTagger(players[1..], id) {
        TaggerFound(players[1..], id);
      }
    }
  }

  /** One of the player's samples is a tagger. */
  ghost predicate Tags(players: seq<Sample>, id: PlayerId) {
    exists j :: 0 <= j < |players| && players[j].isTagger && players[j].id == id
  }

  /** Who is behind another: those behind in the rest of the list, and all its taggers if the head is one. */
  lemma BehindTail(players: seq<Sample>, id: PlayerId)
    requires players != [] && UniqueIds(players)
    ensures
      var rest := players[1..];
      && (Behind(players, id) <==> Behind(rest, id) || (players[0].isTagger && Tags(rest, id)))
      && (Tags(rest, id) ==> IsTagger(rest, id) && players[0].id != id)
  {
    var rest := players[1..];
    assert forall j :: 0 <= j < |rest| ==> rest[j] == players[j + 1];
    if Behind(players, id) {
      var i, j :| 0 <= i < j < |players| && players[i].isTagger && players[j].isTagger && players[j].id == id;
      assert rest[j - 1].isTagger && rest[j - 1].id == id;
      assert i > 0 ==> rest[i - 1].isTagger;
    }
    if j :| 0 <= j < |rest| && rest[j].isTagger && rest[j].id == id {
      TaggerSampled(rest, j);
    }
  }

  ghost predicate TicksInOrder(states: seq<State>) {
    forall i, j :: 0 <= i < j < |states| ==> states[i].tick <= states[j].tick
  }

  /** In no frame that takes time is the player listed behind another tagger. */
  ghost predicate NeverBehind(states: seq<State>, id: PlayerId, n: nat)
    requires n <= |states|
  {
    forall f :: 0 <= f < n && Behind(states[f].players, id) ==> Gap(Marks(states), f) <= 0
  }

  lemma {:induction false} HiddenMeans(states: seq<State>, id: PlayerId, n: nat)
    requires n <= |states| && forall f :: 0 <= f < |states| ==> UniqueIds(states[f].players)
    requires forall f :: 0 <= f < |states| ==> Gap(Marks(states), f) >= 0
    ensures Hidden(states, id, n) >= 0 && (Hidden(states, id, n) == 0 <==> NeverBehind(states, id, n))
  {
    if n > 0 {
      HiddenMeans(states, id, n - 1);
      HiddenSnoc(states, id, n);
      NeverBehindSnoc(states, id, n);
    }
  }

  lemma HiddenSnoc(states: seq<State>, id: PlayerId, n: nat)
    requires 0 < n <= |states| && UniqueIds(states[n - 1].players)
    ensures Hidden(states, id, n)
         == Hidden(states, id, n - 1) + if Behind(states[n - 1].players, id) then Gap(Marks(states), n - 1) else 0
  {
    TaggerOrBehind(states[n - 1].players, id);
  }

  lemma NeverBehindSnoc(states: seq<State>, id: PlayerId, n: nat)
    requires 0 < n <= |states|
    ensures NeverBehind(states, id, n)
       <==> NeverBehind(states, id, n - 1) && (Gap(Marks(states), n - 1) > 0 ==> !Behind(states[n - 1].players, id))
  {
  }

  /**
   With ticks in order, a player's segments add up to its final prefix sum if and only if in no frame that takes
   time it is listed behind another tagger.
   */
  lemma AgreeExactly(states: seq<State>, id: PlayerId)
    requires states != [] && TicksInOrder(states)
    requires forall f :: 0 <= f < |states| ==> UniqueIds(states[f].players)
    ensures TicksAt(states, id, |states| - 1) == Length(Segments(Marks(states), |states|), id)
       <==> NeverBehind(states, id, |states|)
  {
    SegmentsAgainstPrefixSums(states, id);
    forall f | 0 <= f < |states| ensures Gap(Marks(states), f) >= 0 {
      assert f + 1 < |states| ==> states[f].tick <= states[f + 1].tick;
    }
    HiddenMeans(states, id, |states|);
  }

  /** Two taggers in one frame: the second one has the frame's time in its prefix sum and in no segment. */
  lemma TwoTaggersDisagree(start: int, end: int, first: PlayerId, second: PlayerId)
    requires start < end && first < second
    ensures
      var states := [State(start, [Sample(first, true), Sample(second, true)]), State(end, [])];
      && TicksAt(states, second, 1) == end - start
      && Length(Segments(Marks(states), 2), second) == 0
  {
    var players := [Sample(first, true), Sample(second, true)];
    var states := [State(start, players), State(end, [])];
    assert IsTagger(players[1..], second);
    assert TicksAt(states, second, 0) == 0;
    LengthIsHeld(Marks(states), second, 2);
    assert Held(Marks(states), second, 0) == 0;
    assert Held(Marks(states), second, 1) == 0;
  }

  // ---------------------------------------------------------------------------------------------
  // The states are the lists that were given

  ghost predicate SortedById(players: seq<Sample>) {
    forall i, j :: 0 <= i < j < |players| ==> players[i].id <= players[j].id
  }

  lemma {:induction false} InsertedById(sorted: seq<Sample>, s: Sample)
    requires SortedById(sorted)
    ensures SortedById(Inserted(sorted, s)) && multiset(Inserted(sorted, s)) == multiset(sorted) + multiset{s}
    decreases |sorted|
  {
    if sorted != [] && sorted[|sorted| - 1].id > s.id {
      var front, last := sorted[..|sorted| - 1], sorted[|sorted| - 1];
      assert sorted == front + [last];
      InsertedById(front, s);
      forall t | t in Inserted(front, s) ensures t.id <= last.id {
        assert t in multiset(front) + multiset{s};
        assert t in front || t == s;
      }
      SortedSnoc(Inserted(front, s), last);
    } else {
      forall t | t in sorted ensures t.id <= s.id {
      }
      SortedSnoc(sorted, s);
    }
  }

  lemma SortedSnoc(players: seq<Sample>, last: Sample)
    requires SortedById(players) && forall t :: t in players ==> t.id <= last.id
    ensures SortedById(players + [last])
  {
    var after := players + [last];
    forall i, j | 0 <= i < j < |after| ensures after[i].id <= after[j].id {
      assert after[i] == players[i] && players[i] in players;
    }
  }

  /** The list is kept and put in order. */
  lemma {:induction false} ByIdKeeps(players: seq<Sample>)
    ensures SortedById(ById(players)) && multiset(ById(players)) == multiset(players)
    decreases |players|
  {
    if players != [] {
      var front, last := players[..|players| - 1], players[|players| - 1];
      assert players == front + [last];
      ByIdKeeps(front);
      InsertedById(ById(front), last);
    }
  }

  /** What a state shows at the end of some frames: nothing before the first list, then the last list given. */
  ghost predicate LastGiven(frames: seq<Frame>, shown: seq<Sample>) {
    || (shown == [] && forall k :: 0 <= k < |frames| ==> frames[k].players.None?)
    || exists k: nat :: GivenAt(frames, k) && SortedById(shown) && multiset(shown) == multiset(frames[k].players.value)
  }

  /** The list of frame `k` is the last one. */
  ghost predicate GivenAt(frames: seq<Frame>, k: nat) {
    k < |frames| && frames[k].players.Some? && forall later :: k < later < |frames| ==> frames[later].players.None?
  }

  /** A frame without a list repeats the last one that was given, with the same players in order of their ids. */
  lemma {:induction false} CarriedIsLastGiven(frames: seq<Frame>)
    ensures LastGiven(frames, Carried(frames))
    decreases |frames|
  {
    if frames != [] {
      var n := |frames| - 1;
      var front := frames[..n];
      if frames[n].players.Some? {
        ByIdKeeps(frames[n].players.value);
        assert GivenAt(frames, n);
      } else {
        CarriedIsLastGiven(front);
        if k: nat :| GivenAt(front, k) && SortedById(Carried(front))
                     && multiset(Carried(front)) == multiset(front[k].players.value) {
          assert GivenAt(frames, k) && frames[k] == front[k];
        }
      }
    }
  }
}
