/**
 What the supervisor does in each situation, on its children and the heartbeats alone, and how it restores the minimum
 (server-supervisor/src/policy.ts:57-103, server-supervisor/src/main.ts:134-165).
 */
module ScalingProgress {
  import opened Wrappers
  import opened Scaling

  /** The children no heartbeat of which was ever seen. */
  function NotUp(st: State, servers: seq<Heartbeat>): set<ServerId> {
    set id | id in st.children && !st.children[id].seen && !Alive(servers, id)
  }

  predicate Rested(st: State, now: int, p: Policy) {
    st.lastActionAt.Some? ==> now - st.lastActionAt.value >= p.cooldownMs
  }

  /** The children after a look: those with a heartbeat are up, those whose first one drains are draining. */
  ghost predicate OnlyMarked(st: State, x: State, servers: seq<Heartbeat>, others: set<ServerId>) {
    && st.children.Keys <= x.children.Keys + others
    && forall id :: id in st.children && id !in others ==>
        && (x.children[id].seen <==> st.children[id].seen || Alive(servers, id))
        && (st.children[id].draining ==> x.children[id].draining)
        && (Alive(servers, id) && (forall h :: h in servers && h.serverId == id ==> h.draining)
            ==> x.children[id].draining)
        && (x.children[id].draining ==>
              st.children[id].draining || exists h :: h in servers && h.serverId == id && h.draining)
  }

  ghost predicate Nothing(st: State, x: State, servers: seq<Heartbeat>) {
    x.children.Keys == st.children.Keys && x.lastActionAt == st.lastActionAt && OnlyMarked(st, x, servers, {})
  }

  /** One process more, which has not been heard of, and nothing else but marks. */
  ghost predicate Spawned(st: State, x: State, servers: seq<Heartbeat>, now: int, newId: ServerId) {
    && x.children.Keys == st.children.Keys + {newId} && x.children[newId] == Child(false, false)
    && x.lastActionAt == Some(now) && OnlyMarked(st, x, servers, {})
  }

  /** The server named is put to sleep, and nothing else but marks. */
  ghost predicate Asleep(st: State, x: State, servers: seq<Heartbeat>, now: int, id: ServerId) {
    && x.children.Keys == st.children.Keys && (id in st.children ==> x.children[id].draining)
    && x.lastActionAt == Some(now) && OnlyMarked(st, x, servers, {id})
  }

  lemma NotUpIsUnseen(st: State, servers: seq<Heartbeat>)
    ensures Unseen(MarkAll(st.children, servers)) == NotUp(st, servers)
  {
  }

  lemma ActedIs(st: State, servers: seq<Heartbeat>, action: Action, now: int, newId: ServerId)
    requires newId !in st.children
    ensures
      var x := Acted(st.(children := MarkAll(st.children, servers)), action, now, newId);
      match action
      case Hold => Nothing(st, x, servers)
      case Up => Spawned(st, x, servers, now, newId)
      case Down(id) => Asleep(st, x, servers, now, id)
  {
  }

  /** Below the minimum one process is spawned, however short ago the last action was and whatever the loads are. */
  lemma BelowMinimumSpawns(st: State, servers: seq<Heartbeat>, now: int, newId: ServerId, p: Policy)
    requires newId !in st.children && |st.children| < p.maxServers
    requires |Active(servers)| + |NotUp(st, servers)| < p.minServers
    ensures Spawned(st, Ticked(st, Some(servers), now, newId, p), servers, now, newId)
  {
    NotUpIsUnseen(st, servers);
    ActedIs(st, servers, Up, now, newId);
  }

  /** With the minimum met, everybody up and the cooldown over, too high an average spawns one process. */
  lemma OverloadSpawns(st: State, servers: seq<Heartbeat>, now: int, newId: ServerId, p: Policy)
    requires newId !in st.children && |st.children| < p.maxServers
    requires p.minServers <= |Active(servers)| < p.maxServers && NotUp(st, servers) == {} && Rested(st, now, p)
    requires Active(servers) != [] && TotalLoad(Active(servers)) / |Active(servers)| as real > p.scaleUpLoad
    ensures Spawned(st, Ticked(st, Some(servers), now, newId, p), servers, now, newId)
  {
    NotUpIsUnseen(st, servers);
    OverloadDecides(InputOf(st, servers, now, p), |st.children|);
    ActedIs(st, servers, Up, now, newId);
  }

  lemma OverloadDecides(i: Input, liveChildren: nat)
    requires liveChildren < i.policy.maxServers && i.starting == 0
    requires i.policy.minServers <= |Active(i.servers)| < i.policy.maxServers && Active(i.servers) != []
    requires i.lastActionAt.Some? ==> i.now - i.lastActionAt.value >= i.policy.cooldownMs
    requires TotalLoad(Active(i.servers)) / |Active(i.servers)| as real > i.policy.scaleUpLoad
    ensures DecideLocalScaling(i, liveChildren) == Up
  {
    AverageMeans(Active(i.servers), i.policy.scaleUpLoad);
  }

  /**
   With more than the minimum, nobody starting or draining and the cooldown over, too low an average puts the quietest
   server to sleep.
   */
  lemma IdleSleeps(st: State, servers: seq<Heartbeat>, now: int, newId: ServerId, p: Policy)
    requires Valid(p) && newId !in st.children && NotUp(st, servers) == {} && Rested(st, now, p)
    requires p.minServers < |Active(servers)| == |servers|
    requires TotalLoad(Active(servers)) / |Active(servers)| as real < p.scaleDownLoad
    ensures exists h ::
      && h in servers && (forall other :: other in servers ==> QuieterOrEqual(h, other))
      && Asleep(st, Ticked(st, Some(servers), now, newId, p), servers, now, h.serverId)
  {
    NotUpIsUnseen(st, servers);
    NobodyDrains(servers);
    IdleDecides(InputOf(st, servers, now, p), |st.children|);
    var h := Quietest(Active(servers));
    ActedIs(st, servers, Down(h.serverId), now, newId);
    assert Asleep(st, Ticked(st, Some(servers), now, newId, p), servers, now, h.serverId);
  }

  lemma IdleDecides(i: Input, liveChildren: nat)
    requires Valid(i.policy) && i.starting == 0 && i.policy.minServers < |Active(i.servers)| == |i.servers|
    requires i.lastActionAt.Some? ==> i.now - i.lastActionAt.value >= i.policy.cooldownMs
    requires TotalLoad(Active(i.servers)) / |Active(i.servers)| as real < i.policy.scaleDownLoad
    ensures DecideLocalScaling(i, liveChildren) == Down(Quietest(Active(i.servers)).serverId)
  {
    AverageMeans(Active(i.servers), i.policy.scaleDownLoad);
    AverageMeans(Active(i.servers), i.policy.scaleUpLoad);
  }

  lemma {:induction false} NobodyDrains(servers: seq<Heartbeat>)
    requires |Active(servers)| == |servers|
    ensures Active(servers) == servers
    decreases |servers|
  {
    if servers != [] {
      NobodyDrains(servers[..|servers| - 1]);
      assert servers == servers[..|servers| - 1] + [servers[|servers| - 1]];
    }
  }

  /** With the minimum met, nothing is done during a cooldown, while a process starts, or between the thresholds. */
  lemma OtherwiseWaits(st: State, servers: seq<Heartbeat>, now: int, newId: ServerId, p: Policy)
    requires Valid(p) && newId !in st.children && p.minServers <= |Active(servers)| + |NotUp(st, servers)|
    requires
      || !Rested(st, now, p)
      || NotUp(st, servers) != {}
      || p.scaleDownLoad <= TotalLoad(Active(servers)) / |Active(servers)| as real <= p.scaleUpLoad
    ensures Nothing(st, Ticked(st, Some(servers), now, newId, p), servers)
  {
    NotUpIsUnseen(st, servers);
    WaitDecides(InputOf(st, servers, now, p), |st.children|);
    ActedIs(st, servers, Hold, now, newId);
  }

  lemma WaitDecides(i: Input, liveChildren: nat)
    requires Valid(i.policy) && i.policy.minServers <= |Active(i.servers)| + i.starting
    requires
      || (i.lastActionAt.Some? && i.now - i.lastActionAt.value < i.policy.cooldownMs)
      || i.starting > 0
      || i.policy.scaleDownLoad <= TotalLoad(Active(i.servers)) / |Active(i.servers)| as real <= i.policy.scaleUpLoad
    ensures DecideLocalScaling(i, liveChildren) == Hold
  {
    if i.starting == 0 {
      AverageMeans(Active(i.servers), i.policy.scaleDownLoad);
      AverageMeans(Active(i.servers), i.policy.scaleUpLoad);
    }
  }

  // ---------------------------------------------------------------------------------------------
  // The minimum over runs

  function Looks(moves: seq<Move>): nat
    decreases |moves|
  {
    if moves == [] then 0 else (if moves[0].Look? then 1 else 0) + Looks(moves[1..])
  }

  /** The minimum is met, or there is room for the processes that are missing. */
  ghost predicate Room(f: Fleet, p: Policy) {
    Capacity(f) >= p.minServers || |f.st.children| + p.minServers <= p.maxServers + Capacity(f)
  }

  /** From `before` by `looks` to `after`, or to the minimum at least. */
  predicate Grown(before: nat, looks: nat, after: nat, minimum: nat) {
    after >= minimum || after >= before + looks
  }

  lemma LookGrows(f: Fleet, m: Move, load: real, p: Policy)
    requires Valid(p) && Known(f) && Room(f, p) && Possible(f, m, load) && m.Look?
    ensures
      var x := Moved(f, m, p);
      Known(x) && Room(x, p) && Grown(Capacity(f), 1, Capacity(x), p.minServers)
      && (Capacity(f) >= p.minServers ==> Capacity(x) >= p.minServers)
  {
    LookCapacity(f, m.servers, m.now, m.newId, load, p);
    LookCounts(f, m.servers, load);
    if Capacity(f) < p.minServers {
      NotUpIsUnseen(f.st, m.servers);
      BelowMinimumSpawns(f.st, m.servers, m.now, m.newId, p);
      LookIsTick(f, m.servers, m.now, m.newId, p);
      OneChildMore(f.st, Moved(f, m, p).st, m.newId);
      assert ActionOf(f.st, m.servers, m.now, p).Up?;
    } else {
      DecisionMeans(f, m.servers, m.now, load, p);
    }
  }

  lemma OneChildMore(st: State, x: State, id: ServerId)
    requires id !in st.children && x.children.Keys == st.children.Keys + {id}
    ensures |x.children| == |st.children| + 1
  {
    SizeIsKeys(st.children);
    SizeIsKeys(x.children);
  }

  lemma OthersKeepRoom(f: Fleet, m: Move, load: real, p: Policy)
    requires Known(f) && Room(f, p) && Possible(f, m, load) && !m.Look?
    ensures
      var x := Moved(f, m, p);
      Known(x) && Room(x, p) && Capacity(x) == Capacity(f)
  {
    OthersCapacity(f, m, load, p);
    if m.Leave? {
      ExitBounded(f.st, m.id);
    }
  }

  /**
   The minimum is restored: from any fleet with room for the missing processes, after as many looks as are missing
   there are at least `minServers` starting or serving, whatever comes up or goes in between, and so it stays.
   */
  lemma {:induction false} MinimumRestored(f: Fleet, moves: seq<Move>, end: Fleet, load: real, p: Policy)
    requires Valid(p) && Known(f) && Room(f, p) && Moves(f, moves, end, load, p)
    ensures Grown(Capacity(f), Looks(moves), Capacity(end), p.minServers)
    ensures Capacity(f) >= p.minServers ==> Capacity(end) >= p.minServers
    decreases |moves|
  {
    if moves != [] {
      var next := FirstMove(f, moves, end, load, p);
      MinimumRestored(next, moves[1..], end, load, p);
      assert Looks(moves) == (if moves[0].Look? then 1 else 0) + Looks(moves[1..]);
    }
  }

  lemma FirstMove(f: Fleet, moves: seq<Move>, end: Fleet, load: real, p: Policy) returns (next: Fleet)
    requires Valid(p) && Known(f) && Room(f, p) && Moves(f, moves, end, load, p) && moves != []
    ensures Known(next) && Room(next, p) && Moves(next, moves[1..], end, load, p)
    ensures Grown(Capacity(f), if moves[0].Look? then 1 else 0, Capacity(next), p.minServers)
    ensures Capacity(f) >= p.minServers ==> Capacity(next) >= p.minServers
  {
    next := Moved(f, moves[0], p);
    MoveGrows(f, moves[0], load, p);
  }

  lemma MoveGrows(f: Fleet, m: Move, load: real, p: Policy)
    requires Valid(p) && Known(f) && Room(f, p) && Possible(f, m, load)
    ensures
      var x := Moved(f, m, p);
      && Known(x) && Room(x, p)
      && Grown(Capacity(f), if m.Look? then 1 else 0, Capacity(x), p.minServers)
      && (Capacity(f) >= p.minServers ==> Capacity(x) >= p.minServers)
  {
    if m.Look? {
      LookGrows(f, m, load, p);
    } else {
      OthersKeepRoom(f, m, load, p);
    }
  }

  // ---------------------------------------------------------------------------------------------
  // What a load is

  /** An idle server has no load; a room weighs one, as much as eight connections or a second of loop lag. */
  lemma LoadWeighs(h: Heartbeat, rooms: nat, games: nat, connections: nat, lagMs: real)
    ensures ServerLoad(h.(waitingRooms := 0, playingRooms := 0, connections := 0, loopLagMs := 0.0)) == 0.0
    ensures
      var more := h.(waitingRooms := h.waitingRooms + rooms, playingRooms := h.playingRooms + games,
                     connections := h.connections + 8 * connections, loopLagMs := h.loopLagMs + 1000.0 * lagMs);
      ServerLoad(more) == ServerLoad(h) + (rooms + games + connections) as real + lagMs
  {
  }
}
