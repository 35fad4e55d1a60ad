/** A concrete run of the hand-off: server 0 hands a one-member room to server 1 while its publish loop is under way. */
module HandOffExample {
  import opened Wrappers
  import opened HandOff
  import opened HandOffInvariant
  import opened HandOffSafety
  import Redis

  const FRESH := Server(false, Missing, Idle, None, Rest, false, Quiet)
  const SOURCE := FRESH.(room := Held(false, [7]))
  const FROZEN := FRESH.(draining := true, projected := true, room := Held(true, [7]))
  const STORE: Store := map[DirectoryKey := Owned(0, 0), ClaimKey(7) := Owned(0, 0)]
  const PENDING: Store := STORE[IntentKey(5) := State(Intent.Pending)]
  const TRANSFER := Transfer(0, 1, [7])

  function Before(redis: Store, source: Server, target: Server, issued: bool, sent: bool): World {
    World(redis, [source, target], if sent then map[5 := TRANSFER] else map[], if issued then map[5 := 0] else map[],
          0, false)
  }

  const START := Before(STORE, SOURCE, FRESH, false, false)

  /** The states of the run, up to the last read of the peer. */
  function Stage(i: nat): World {
    var staged := FRESH.(staged := Some(5));
    if i == 0 then START
    else if i == 1 then Before(STORE, SOURCE.(draining := true), FRESH, false, false)
    else if i == 2 then Before(STORE, FROZEN.(room := Held(false, [7])), FRESH, false, false)
    else if i == 3 then Before(STORE, FROZEN.(hand := Create(5, 1)), FRESH, true, false)
    else if i == 4 then Before(PENDING, FROZEN.(hand := Created(5, 1, true)), FRESH, true, false)
    else if i == 5 then Before(PENDING, FROZEN.(hand := Send(5, 1)), FRESH, true, false)
    else if i == 6 then Before(PENDING, FROZEN.(hand := Wait(5)), FRESH, true, true)
    else if i == 7 then Before(PENDING, FROZEN.(hand := Wait(5)), staged.(adopt := Check(5)), true, true)
    else if i == 8 then Gathering(Gather(5, []))
    else if i == 9 then Gathering(Gather(5, [Owned(0, 0)]))
    else if i == 10 then Gathering(Gather(5, [Owned(0, 0), Owned(0, 0)]))
    else Gathering(Adopt.Commit(5, [Owned(0, 0), Owned(0, 0)]))
  }

  /** The peer while it gathers. */
  function Gathering(adopt: Adopt): World {
    Before(PENDING, FROZEN.(hand := Wait(5)), FRESH.(staged := Some(5), adopt := adopt), true, true)
  }

  function Step(i: nat): Label {
    if i == 0 then Drain(0)
    else if i == 1 then Project(0)
    else if i == 2 then Freeze(0, 5, 1)
    else if i == 3 then CreateCall(0)
    else if i == 4 then CreateReply(0, false)
    else if i == 5 then SendCall(0, true)
    else if i == 6 then Deliver(1, 5, false)
    else if i == 7 then CheckCall(1)
    else GatherCall(1)
  }

  lemma DrainSteps(i: nat)
    requires i < 2
    ensures Enabled(Stage(i), Step(i)) && Apply(Stage(i), Step(i)) == Stage(i + 1)
  {
  }

  lemma FreezeStep()
    ensures Enabled(Stage(2), Step(2)) && Apply(Stage(2), Step(2)) == Stage(3)
  {
  }

  lemma SendSteps(i: nat)
    requires 3 <= i < 6
    ensures Enabled(Stage(i), Step(i)) && Apply(Stage(i), Step(i)) == Stage(i + 1)
  {
  }

  lemma StageSteps(i: nat)
    requires 6 <= i < 8
    ensures Enabled(Stage(i), Step(i)) && Apply(Stage(i), Step(i)) == Stage(i + 1)
  {
  }

  lemma GatherStep(seen: seq<Value>)
    ensures
      var w := Gathering(Gather(5, seen));
      Enabled(w, GatherCall(1)) && Apply(w, GatherCall(1)) == Gathering(Gathered(w, w.servers[1]))
  {
  }

  /** What each read of the peer leads to. */
  lemma GatheredValues()
    ensures
      var value := Owned(0, 0);
      var first, second, third := Gather(5, []), Gather(5, [value]), Gather(5, [value, value]);
      && Gathered(Gathering(first), Gathering(first).servers[1]) == second
      && Gathered(Gathering(second), Gathering(second).servers[1]) == third
      && Gathered(Gathering(third), Gathering(third).servers[1]) == Adopt.Commit(5, [value, value])
  {
    assert Keys([7]) == [DirectoryKey, ClaimKey(7)];
  }

  lemma FirstGather()
    ensures Enabled(Stage(8), Step(8)) && Apply(Stage(8), Step(8)) == Stage(9)
  {
    GatheredValues();
    GatherStep([]);
  }

  lemma SecondGather()
    ensures Enabled(Stage(9), Step(9)) && Apply(Stage(9), Step(9)) == Stage(10)
  {
    GatheredValues();
    GatherStep([Owned(0, 0)]);
  }

  lemma LastGather()
    ensures Enabled(Stage(10), Step(10)) && Apply(Stage(10), Step(10)) == Stage(11)
  {
    GatheredValues();
    GatherStep([Owned(0, 0), Owned(0, 0)]);
  }

  lemma {:induction false} StageReached(i: nat)
    requires i <= 11
    ensures Reaches(START, Stage(i))
  {
    if i == 0 {
      assert Takes(START, []) && After(START, []) == START;
    } else {
      StageReached(i - 1);
      if i <= 2 {
        DrainSteps(i - 1);
      } else if i == 3 {
        FreezeStep();
      } else if i <= 6 {
        SendSteps(i - 1);
      } else if i <= 8 {
        StageSteps(i - 1);
      } else if i == 9 {
        FirstGather();
      } else if i == 10 {
        SecondGather();
      } else {
        LastGather();
      }
      ReachesNext(START, Stage(i - 1), Step(i - 1));
    }
  }

  lemma BatchMatches()
    ensures
      var batch := Batch(5, TRANSFER, [Owned(0, 0), Owned(0, 0)], 9);
      && Redis.WellFormed(batch) && Redis.Matches(PENDING, batch)
      && IntentIs(Redis.Written(PENDING, batch), 5, Intent.Committed)
  {
    assert Keys([7]) == [DirectoryKey, ClaimKey(7)];
    var batch := Batch(5, TRANSFER, [Owned(0, 0), Owned(0, 0)], 9);
    assert |batch| == 3 && batch[0].key == IntentKey(5) && batch[1].key == DirectoryKey && batch[2].key == ClaimKey(7);
    Redis.WrittenAt(PENDING, batch, 0);
  }

  /** The commit goes through, and the source has not heard of it yet. */
  lemma CommitReached() returns (w: World)
    ensures Reaches(START, w) && |w.servers| == 2 && w.servers[0] == FROZEN.(hand := Wait(5))
    ensures IsCommitted(w, 5)
  {
    StageReached(11);
    BatchMatches();
    assert |Keys([7])| == 2;
    ReachesNext(START, Stage(11), CommitCall(1, 9));
    w := Apply(Stage(11), CommitCall(1, 9));
  }

  /** Every state of the run keeps the invariant. */
  lemma ReachedOk(w: World)
    requires Reaches(START, w)
    ensures Inv(w)
  {
    StartOk();
    InitOk(START);
    ReachesKeeps(START, w);
  }

  lemma ReachesKeeps(w: World, x: World)
    requires Inv(w) && Reaches(w, x)
    ensures Inv(x)
  {
    var run :| Takes(w, run) && After(w, run) == x;
    RunOk(w, run);
  }

  lemma ReachesOn(w: World, x: World, y: World) returns (run: seq<Label>)
    requires Reaches(w, x) && Reaches(x, y)
    ensures Takes(w, run) && After(w, run) == y
  {
    var before :| Takes(w, before) && After(w, before) == x;
    var after :| Takes(x, after) && After(x, after) == y;
    Joined(w, before, after);
    run := before + after;
  }

  /** From the initial state a run exists after which the directory names the source that gave the room away. */
  lemma DirectoryGoesWrong() returns (w: World, run: seq<Label>)
    ensures Init(START) && Takes(START, run) && After(START, run) == w
    ensures w.owner == 1 && Names(w.redis, DirectoryKey, 0) && !DirectoryOk(w)
    ensures !DirectoryOkThroughout(START, run)
  {
    var x := CommitReached();
    ReachedOk(x);
    OwnerInRange(x);
    w := DirectoryCanGoWrong(x, 0);
    run := ReachesOn(START, x, w);
    StartOk();
    EndsOk(START, run);
  }

  lemma OwnerInRange(w: World)
    requires Inv(w)
    ensures w.owner < |w.servers|
  {
  }

  lemma StartOk()
    ensures Init(START)
  {
  }

  lemma {:induction false} Joined(w: World, first: seq<Label>, second: seq<Label>)
    requires Takes(w, first) && Takes(After(w, first), second)
    ensures Takes(w, first + second) && After(w, first + second) == After(After(w, first), second)
    decreases |first|
  {
    if first == [] {
      assert first + second == second;
    } else {
      assert (first + second)[1..] == first[1..] + second;
      Joined(Apply(w, first[0]), first[1..], second);
    }
  }

  lemma {:induction false} EndsOk(w: World, run: seq<Label>)
    requires Takes(w, run)
    ensures DirectoryOkThroughout(w, run) ==> DirectoryOk(After(w, run))
    decreases |run|
  {
    if run != [] {
      EndsOk(Apply(w, run[0]), run[1..]);
    }
  }
}
