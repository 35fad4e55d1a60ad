/**
 The autoscaler: the pure rule of server-supervisor/src/policy.ts and the loop of
 server-supervisor/src/main.ts that acts on it.
 */
module Scaling {
  import opened Wrappers

  type ServerId = nat

  datatype Policy = Policy(minServers: nat, maxServers: nat, scaleUpLoad: real, scaleDownLoad: real, cooldownMs: nat)

  /** What `readScalingPolicy` lets through. */
  predicate Valid(p: Policy) {
    && 1 <= p.minServers <= p.maxServers <= 64
    && 0.0 <= p.scaleDownLoad < p.scaleUpLoad
    && 1_000 <= p.cooldownMs <= 3_600_000
  }

  datatype Heartbeat = Heartbeat(
    serverId: ServerId, draining: bool,
    waitingRooms: nat, playingRooms: nat, connections: nat, loopLagMs: real)

  datatype Action = Hold | Up | Down(serverId: ServerId)

  datatype Input = Input(servers: seq<Heartbeat>, starting: nat, now: int, lastActionAt: Option<int>, policy: Policy)

  function ServerLoad(h: Heartbeat): real {
    (h.waitingRooms + h.playingRooms) as real + h.connections as real / 8.0 + h.loopLagMs / 1000.0
  }

  function Active(servers: seq<Heartbeat>): (r: seq<Heartbeat>)
    ensures |r| <= |servers|
    ensures forall h :: h in r <==> h in servers && !h.draining
    decreases |servers|
  {
    if servers == [] then []
    else
      var front := Active(servers[..|servers| - 1]);
      var last := servers[|servers| - 1];
      assert servers == servers[..|servers| - 1] + [last];
      if last.draining then front else front + [last]
  }

  function TotalLoad(servers: seq<Heartbeat>): real
    decreases |servers|
  {
    if servers == [] then 0.0 else TotalLoad(servers[..|servers| - 1]) + ServerLoad(servers[|servers| - 1])
  }

  predicate QuieterOrEqual(a: Heartbeat, b: Heartbeat) {
    ServerLoad(a) < ServerLoad(b) || (ServerLoad(a) == ServerLoad(b) && a.serverId <= b.serverId)
  }

  /** The first element of the servers sorted by load and then by id. */
  function Quietest(servers: seq<Heartbeat>): (r: Heartbeat)
    requires servers != []
    ensures r in servers && forall h :: h in servers ==> QuieterOrEqual(r, h)
    decreases |servers|
  {
    var last := servers[|servers| - 1];
    if |servers| == 1 then last
    else
      var best := Quietest(servers[..|servers| - 1]);
      assert servers == servers[..|servers| - 1] + [last];
      if QuieterOrEqual(best, last) then best else last
  }

  /** `n` times a load, by addition. */
  function Times(x: real, n: nat): real {
    if n == 0 then 0.0 else Times(x, n - 1) + x
  }

  /**
   The average load against a threshold, as the total against so many times the threshold (`AverageMeans`);
   no active server counts as infinitely loaded.
   */
  predicate AverageAbove(active: seq<Heartbeat>, threshold: real) {
    active == [] || TotalLoad(active) > Times(threshold, |active|)
  }

  predicate AverageBelow(active: seq<Heartbeat>, threshold: real) {
    active != [] && TotalLoad(active) < Times(threshold, |active|)
  }

  lemma {:induction false} TimesIs(x: real, n: nat)
    ensures Times(x, n) == x * n as real
  {
    if n > 0 {
      TimesIs(x, n - 1);
      assert x * n as real == x * ((n - 1) as real + 1.0) == x * (n - 1) as real + x;
    } else {
      assert x * 0.0 == 0.0;
    }
  }

  lemma StrictTimes(a: real, b: real, c: real)
    requires a < b && c > 0.0
    ensures a * c < b * c
  {
  }

  lemma AverageMeans(active: seq<Heartbeat>, threshold: real)
    requires active != []
    ensures AverageAbove(active, threshold) <==> TotalLoad(active) / |active| as real > threshold
    ensures AverageBelow(active, threshold) <==> TotalLoad(active) / |active| as real < threshold
  {
    TimesIs(threshold, |active|);
    Quotient(TotalLoad(active), threshold, |active| as real);
  }

  lemma Quotient(total: real, threshold: real, c: real)
    requires c > 0.0
    ensures total > threshold * c <==> total / c > threshold
    ensures total < threshold * c <==> total / c < threshold
  {
    var q := total / c;
    assert q * c == total;
    if q > threshold {
      StrictTimes(threshold, q, c);
    } else if q < threshold {
      StrictTimes(q, threshold, c);
    }
  }

  function DecideScaling(i: Input): Action {
    var active := Active(i.servers);
    var draining := |i.servers| - |active|;
    var capacity := |active| + i.starting;
    if capacity < i.policy.minServers then Up
    else if i.lastActionAt.Some? && i.now - i.lastActionAt.value < i.policy.cooldownMs then Hold
    else if i.starting > 0 then Hold
    else if AverageAbove(active, i.policy.scaleUpLoad) && capacity < i.policy.maxServers then Up
    else if draining > 0 then Hold
    else if AverageBelow(active, i.policy.scaleDownLoad) && |active| > i.policy.minServers then
      Down(Quietest(active).serverId)
    else Hold
  }

  function DecideLocalScaling(i: Input, liveChildren: nat): Action {
    var action := DecideScaling(i);
    if action.Up? && liveChildren >= i.policy.maxServers then Hold else action
  }

  // ---------------------------------------------------------------------------------------------
  // The supervisor's own state

  datatype Child = Child(seen: bool, draining: bool)

  datatype State = State(children: map<ServerId, Child>, lastActionAt: Option<int>)

  predicate Alive(servers: seq<Heartbeat>, id: ServerId) {
    exists h :: h in servers && h.serverId == id
  }

  /** `servers.find(...)`: the first heartbeat of a server. */
  function FindHeartbeat(servers: seq<Heartbeat>, id: ServerId): (r: Option<Heartbeat>)
    ensures r.Some? <==> Alive(servers, id)
    ensures r.Some? ==> r.value in servers && r.value.serverId == id
    decreases |servers|
  {
    if servers == [] then None
    else if servers[0].serverId == id then Some(servers[0])
    else
      assert servers == [servers[0]] + servers[1..];
      FindHeartbeat(servers[1..], id)
  }

  function Marked(c: Child, id: ServerId, servers: seq<Heartbeat>): Child {
    var h := FindHeartbeat(servers, id);
    Child(c.seen || h.Some?, c.draining || (h.Some? && h.value.draining))
  }

  function MarkAll(children: map<ServerId, Child>, servers: seq<Heartbeat>): map<ServerId, Child> {
    map id | id in children :: Marked(children[id], id, servers)
  }

  function Unseen(children: map<ServerId, Child>): set<ServerId> {
    set id | id in children && !children[id].seen
  }

  function InputOf(st: State, servers: seq<Heartbeat>, now: int, policy: Policy): Input {
    Input(servers, |Unseen(MarkAll(st.children, servers))|, now, st.lastActionAt, policy)
  }

  function ActionOf(st: State, servers: seq<Heartbeat>, now: int, policy: Policy): Action {
    DecideLocalScaling(InputOf(st, servers, now, policy), |st.children|)
  }

  /** One tick; `newId` is the random id a spawned process would get. */
  function Ticked(st: State, read: Option<seq<Heartbeat>>, now: int, newId: ServerId, policy: Policy): State {
    if read.None? then st
    else Acted(st.(children := MarkAll(st.children, read.value)), ActionOf(st, read.value, now, policy), now, newId)
  }

  function Acted(marked: State, action: Action, now: int, newId: ServerId): State {
    match action
    case Hold => marked
    case Up => State(marked.children[newId := Child(false, false)], Some(now))
    case Down(id) =>
      State(if id in marked.children then marked.children[id := marked.children[id].(draining := true)]
            else marked.children,
            Some(now))
  }

  class Supervisor {
    const policy: Policy
    var children: map<ServerId, Child>
    var lastActionAt: Option<int>

    constructor (policy: Policy)
      ensures this.policy == policy && Model() == State(map[], None)
    {
      this.policy := policy;
      children, lastActionAt := map[], None;
    }

    function Model(): State
      reads this
    {
      State(children, lastActionAt)
    }

    method Tick(read: Option<seq<Heartbeat>>, now: int, newId: ServerId) returns (action: Action)
      modifies this
      ensures Model() == Ticked(old(Model()), read, now, newId, policy)
      ensures action == if read.None? then Hold else ActionOf(old(Model()), read.value, now, policy)
    {
      if read.None? {
        return Hold;
      }
      var servers := read.value;
      Mark(servers);
      SameSize(children, old(children));
      var starting := |Unseen(children)|;
      action := DecideLocalScaling(Input(servers, starting, now, lastActionAt, policy), |children|);
      assert action == ActionOf(old(Model()), servers, now, policy);
      match action {
        case Up =>
          lastActionAt := Some(now);
          children := children[newId := Child(false, false)];
        case Down(id) =>
          lastActionAt := Some(now);
          if id in children {
            children := children[id := children[id].(draining := true)];
          }
        case Hold =>
      }
    }

    method Mark(servers: seq<Heartbeat>)
      modifies this`children
      ensures children == MarkAll(old(children), servers)
    {
      var todo := children.Keys;
      ghost var before := children;
      while todo != {}
        invariant todo <= before.Keys && children.Keys == before.Keys
        invariant forall id :: id in before ==>
          children[id] == if id in todo then before[id] else Marked(before[id], id, servers)
        decreases todo
      {
        var id :| id in todo;
        todo := todo - {id};
        var heartbeat := FindHeartbeat(servers, id);
        if heartbeat.Some? {
          children := children[id := children[id].(seen := true)];
        }
        if heartbeat.Some? && heartbeat.value.draining {
          children := children[id := children[id].(draining := true)];
        }
      }
    }

    method ChildExited(id: ServerId)
      modifies this`children
      ensures children == old(children) - {id}
    {
      children := children - {id};
    }
  }

  lemma {:induction false} SameSize<V, W>(a: map<ServerId, V>, b: map<ServerId, W>)
    requires a.Keys == b.Keys
    ensures |a| == |b|
  {
    SizeIsKeys(a);
    SizeIsKeys(b);
  }

  lemma {:induction false} SizeIsKeys<V>(m: map<ServerId, V>)
    ensures |m| == |m.Keys|
    decreases |m.Keys|
  {
    if m.Keys != {} {
      var k :| k in m.Keys;
      var rest := m - {k};
      assert m == rest[k := m[k]] && k !in rest;
      assert rest.Keys == m.Keys - {k};
      SizeIsKeys(rest);
    } else {
      assert m == map[];
    }
  }

  // ---------------------------------------------------------------------------------------------
  // Over every run, whatever the registry says

  /** A tick with any read at all, or a child process that ends. */
  datatype Event = Tick(read: Option<seq<Heartbeat>>, now: int, newId: ServerId) | Exit(id: ServerId)

  /** One thing the supervisor did; the load drove it when the minimum was met. */
  datatype Deed = Deed(at: int, action: Action, byLoad: bool)

  predicate Fresh(st: State, e: Event) {
    e.Tick? ==> e.newId !in st.children
  }

  function After(st: State, e: Event, policy: Policy): State {
    match e
    case Tick(read, now, newId) => Ticked(st, read, now, newId, policy)
    case Exit(id) => st.(children := st.children - {id})
  }

  function DeedOf(st: State, e: Event, policy: Policy): seq<Deed> {
    if e.Exit? || e.read.None? then []
    else
      var action := ActionOf(st, e.read.value, e.now, policy);
      var i := InputOf(st, e.read.value, e.now, policy);
      if action.Hold? then [] else [Deed(e.now, action, |Active(i.servers)| + i.starting >= policy.minServers)]
  }

  ghost predicate Run(st: State, events: seq<Event>, end: State, deeds: seq<Deed>, policy: Policy)
    decreases |events|
  {
    if events == [] then end == st && deeds == []
    else
      var first := DeedOf(st, events[0], policy);
      && Fresh(st, events[0]) && first <= deeds
      && Run(After(st, events[0], policy), events[1..], end, deeds[|first|..], policy)
  }

  lemma TickBounded(st: State, servers: seq<Heartbeat>, now: int, newId: ServerId, policy: Policy)
    requires |st.children| <= policy.maxServers && newId !in st.children
    ensures |Ticked(st, Some(servers), now, newId, policy).children| <= policy.maxServers
  {
    var marked := MarkAll(st.children, servers);
    SameSize(marked, st.children);
    var x := Ticked(st, Some(servers), now, newId, policy);
    if ActionOf(st, servers, now, policy).Up? {
      assert x.children.Keys == marked.Keys + {newId};
      SizeIsKeys(x.children);
      SizeIsKeys(marked);
    } else {
      SameSize(x.children, marked);
    }
  }

  lemma ExitBounded(st: State, id: ServerId)
    ensures |st.children - {id}| <= |st.children|
  {
    SizeIsKeys(st.children);
    SizeIsKeys(st.children - {id});
    assert (st.children - {id}).Keys == st.children.Keys - {id};
    if id in st.children {
      assert st.children.Keys == (st.children.Keys - {id}) + {id};
    } else {
      assert st.children.Keys - {id} == st.children.Keys;
    }
  }

  /** Live child processes never exceed the maximum: not with stale, missing, foreign or contradicting heartbeats. */
  lemma {:induction false} ProcessCap(st: State, events: seq<Event>, end: State, deeds: seq<Deed>, policy: Policy)
    requires |st.children| <= policy.maxServers && Run(st, events, end, deeds, policy)
    ensures |end.children| <= policy.maxServers
    decreases |events|
  {
    if events != [] {
      var e := events[0];
      match e {
        case Tick(read, now, newId) =>
          if read.Some? {
            TickBounded(st, read.value, now, newId, policy);
          }
        case Exit(id) => ExitBounded(st, id);
      }
      ProcessCap(After(st, e, policy), events[1..], end, deeds[|DeedOf(st, e, policy)|..], policy);
    }
  }

  /**
   An action driven by load comes at least a cooldown after the one before it; a shrinking action is always
   driven by load.
   */
  lemma {:induction false} ActionsCoolDown(st: State, events: seq<Event>, end: State, deeds: seq<Deed>,
      policy: Policy, i: nat)
    requires Valid(policy) && Run(st, events, end, deeds, policy) && i < |deeds|
    ensures deeds[i].action.Down? ==> deeds[i].byLoad
    ensures deeds[i].byLoad ==>
      var last := if i == 0 then st.lastActionAt else Some(deeds[i - 1].at);
      last.Some? ==> deeds[i].at - last.value >= policy.cooldownMs
    decreases |events|
  {
    var first := DeedOf(st, events[0], policy);
    var next := After(st, events[0], policy);
    if first == [] {
      assert deeds[0..] == deeds;
      ActionsCoolDown(next, events[1..], end, deeds, policy, i);
    } else {
      assert deeds[0] == first[0];
      if i > 0 {
        ActionsCoolDown(next, events[1..], end, deeds[1..], policy, i - 1);
      }
    }
  }

  /**
   A server is put to sleep only when none is starting or draining, at least the minimum stays active and the
   average load is below the lower threshold; it is the least loaded one.
   */
  lemma DownIsSafe(i: Input, liveChildren: nat)
    requires Valid(i.policy) && DecideLocalScaling(i, liveChildren).Down?
    ensures
      var active := Active(i.servers);
      && i.starting == 0 && |active| == |i.servers| && |active| - 1 >= i.policy.minServers
      && TotalLoad(active) / |active| as real < i.policy.scaleDownLoad
      && (exists h :: h in active && h.serverId == DecideLocalScaling(i, liveChildren).serverId
                      && forall other :: other in active ==> QuieterOrEqual(h, other))
  {
    AverageMeans(Active(i.servers), i.policy.scaleDownLoad);
  }

  // ---------------------------------------------------------------------------------------------
  // The closed loop: heartbeats that tell the truth, and a constant load

  datatype Phase = Starting | Serving | Draining

  /** The processes behind the children; `ups` and `downs` count the load-driven actions so far. */
  datatype Fleet = Fleet(st: State, phases: map<ServerId, Phase>, ups: nat, downs: nat)

  ghost predicate Known(f: Fleet) {
    && f.phases.Keys == f.st.children.Keys
    && forall id :: id in f.phases && f.phases[id] == Starting ==> !f.st.children[id].seen
  }

  ghost predicate OncePerServer(servers: seq<Heartbeat>) {
    forall i, j :: 0 <= i < j < |servers| ==> servers[i].serverId != servers[j].serverId
  }

  /** The registry lists exactly the processes that are up, says which are draining, and the others carry `load`. */
  ghost predicate Accurate(servers: seq<Heartbeat>, phases: map<ServerId, Phase>, load: real) {
    && OncePerServer(servers)
    && (forall h ::
        h in servers ==> h.serverId in phases && phases[h.serverId] == if h.draining then Draining else Serving)
    && (forall id :: id in phases && phases[id] != Starting ==> Alive(servers, id))
    && (Active(servers) != [] ==> TotalLoad(Active(servers)) == load)
  }

  function InPhase(phases: map<ServerId, Phase>, phase: Phase): set<ServerId> {
    set id | id in phases && phases[id] == phase
  }

  /** The servers that count as capacity: all but the draining ones. */
  function Capacity(f: Fleet): nat {
    |InPhase(f.phases, Starting)| + |InPhase(f.phases, Serving)|
  }

  datatype Move = Look(servers: seq<Heartbeat>, now: int, newId: ServerId) | ComeUp(id: ServerId) | Leave(id: ServerId)

  ghost predicate Possible(f: Fleet, m: Move, load: real) {
    match m
    case Look(servers, _, newId) => Accurate(servers, f.phases, load) && newId !in f.phases
    case ComeUp(id) => id in f.phases && f.phases[id] == Starting
    case Leave(id) => id in f.phases && f.phases[id] == Draining
  }

  function Moved(f: Fleet, m: Move, policy: Policy): Fleet {
    match m
    case Look(servers, now, newId) =>
      var i := InputOf(f.st, servers, now, policy);
      Turned(f, f.st.(children := MarkAll(f.st.children, servers)), ActionOf(f.st, servers, now, policy), now, newId,
             |Active(servers)| + i.starting >= policy.minServers)
    case ComeUp(id) => f.(phases := f.phases[id := Serving])
    case Leave(id) => f.(st := f.st.(children := f.st.children - {id}), phases := f.phases - {id})
  }

  /** What an action does to the fleet. */
  function Turned(f: Fleet, marked: State, action: Action, now: int, newId: ServerId, byLoad: bool): Fleet {
    var st := Acted(marked, action, now, newId);
    match action
    case Hold => f.(st := st)
    case Up => Fleet(st, f.phases[newId := Starting], if byLoad then f.ups + 1 else f.ups, f.downs)
    case Down(id) => Fleet(st, f.phases[id := Draining], f.ups, f.downs + 1)
  }

  lemma LookIsTick(f: Fleet, servers: seq<Heartbeat>, now: int, newId: ServerId, policy: Policy)
    ensures Moved(f, Look(servers, now, newId), policy).st == Ticked(f.st, Some(servers), now, newId, policy)
  {
  }

  ghost predicate Moves(f: Fleet, moves: seq<Move>, end: Fleet, load: real, policy: Policy)
    decreases |moves|
  {
    if moves == [] then end == f
    else Possible(f, moves[0], load) && Moves(Moved(f, moves[0], policy), moves[1..], end, load, policy)
  }

  function Ids(servers: seq<Heartbeat>): set<ServerId> {
    set i | 0 <= i < |servers| :: servers[i].serverId
  }

  lemma {:induction false} IdsCount(servers: seq<Heartbeat>)
    requires OncePerServer(servers)
    ensures |Ids(servers)| == |servers|
    decreases |servers|
  {
    if servers != [] {
      var n := |servers| - 1;
      IdsCount(servers[..n]);
      forall id ensures id in Ids(servers) <==> id in Ids(servers[..n]) || id == servers[n].serverId {
        if id in Ids(servers[..n]) {
          var i :| 0 <= i < n && servers[..n][i].serverId == id;
          assert servers[i].serverId == id;
        }
        if id in Ids(servers) {
          var i :| 0 <= i < |servers| && servers[i].serverId == id;
          assert i < n ==> servers[..n][i].serverId == id;
        }
        assert servers[n].serverId in Ids(servers);
      }
      assert Ids(servers) == Ids(servers[..n]) + {servers[n].serverId};
      assert servers[n].serverId !in Ids(servers[..n]);
    } else {
      assert Ids(servers) == {};
    }
  }

  lemma {:induction false} ActiveOnce(servers: seq<Heartbeat>)
    requires OncePerServer(servers)
    ensures OncePerServer(Active(servers))
    decreases |servers|
  {
    if servers != [] {
      var n := |servers| - 1;
      ActiveOnce(servers[..n]);
      var front := Active(servers[..n]);
      forall i | 0 <= i < |front| ensures front[i].serverId != servers[n].serverId {
        assert front[i] in servers[..n];
      }
    }
  }

  /** What the supervisor counts is what there is. */
  lemma LookCounts(f: Fleet, servers: seq<Heartbeat>, load: real)
    requires Known(f) && Accurate(servers, f.phases, load)
    ensures Unseen(MarkAll(f.st.children, servers)) == InPhase(f.phases, Starting)
    ensures |Active(servers)| == |InPhase(f.phases, Serving)|
  {
    var marked := MarkAll(f.st.children, servers);
    forall id ensures id in Unseen(marked) <==> id in InPhase(f.phases, Starting) {
      if Alive(servers, id) {
        var h :| h in servers && h.serverId == id;
      }
    }
    var active := Active(servers);
    ActiveOnce(servers);
    IdsCount(active);
    forall id ensures id in Ids(active) <==> id in InPhase(f.phases, Serving) {
      if id in InPhase(f.phases, Serving) {
        assert Alive(servers, id);
        var h :| h in servers && h.serverId == id;
        assert h in active;
        var i :| 0 <= i < |active| && active[i] == h;
      }
    }
    assert Ids(active) == InPhase(f.phases, Serving);
  }

  /** Adding a server, putting one to sleep, letting one come up or go, in numbers. */
  lemma PhaseChanged(phases: map<ServerId, Phase>, id: ServerId, phase: Phase, p: Phase)
    ensures
      var before := InPhase(phases, p) - {id};
      InPhase(phases[id := phase], p) == if phase == p then before + {id} else before
    ensures InPhase(phases - {id}, p) == InPhase(phases, p) - {id}
  {
  }

  /** A new process is starting, so it counts as capacity. */
  lemma GrownCapacity(f: Fleet, id: ServerId)
    requires id !in f.phases
    ensures Capacity(f.(phases := f.phases[id := Starting])) == Capacity(f) + 1
  {
    var starting, serving := InPhase(f.phases, Starting), InPhase(f.phases, Serving);
    PhaseChanged(f.phases, id, Starting, Starting);
    PhaseChanged(f.phases, id, Starting, Serving);
    assert starting - {id} == starting && serving - {id} == serving;
    assert |starting + {id}| == |starting| + 1;
  }

  lemma ShrunkCapacity(f: Fleet, id: ServerId)
    requires id in f.phases && f.phases[id] == Serving
    ensures Capacity(f.(phases := f.phases[id := Draining])) == Capacity(f) - 1
  {
    PhaseChanged(f.phases, id, Draining, Starting);
    PhaseChanged(f.phases, id, Draining, Serving);
    assert id in InPhase(f.phases, Serving);
    assert InPhase(f.phases, Starting) - {id} == InPhase(f.phases, Starting);
  }

  lemma ComeUpCapacity(f: Fleet, id: ServerId)
    requires id in f.phases && f.phases[id] == Starting
    ensures Capacity(f.(phases := f.phases[id := Serving])) == Capacity(f)
  {
    PhaseChanged(f.phases, id, Serving, Starting);
    PhaseChanged(f.phases, id, Serving, Serving);
    assert id in InPhase(f.phases, Starting) && id !in InPhase(f.phases, Serving);
  }

  lemma LeaveCapacity(f: Fleet, id: ServerId)
    requires id in f.phases && f.phases[id] == Draining
    ensures Capacity(f.(phases := f.phases - {id})) == Capacity(f)
  {
    PhaseChanged(f.phases, id, Draining, Starting);
    PhaseChanged(f.phases, id, Draining, Serving);
    assert InPhase(f.phases, Starting) - {id} == InPhase(f.phases, Starting);
    assert InPhase(f.phases, Serving) - {id} == InPhase(f.phases, Serving);
  }

  /** Who is put to sleep was serving. */
  lemma DownIsServing(f: Fleet, servers: seq<Heartbeat>, now: int, load: real, policy: Policy)
    requires Accurate(servers, f.phases, load) && ActionOf(f.st, servers, now, policy).Down?
    ensures
      var id := ActionOf(f.st, servers, now, policy).serverId;
      id in f.phases && f.phases[id] == Serving
  {
    DownNamesQuietest(InputOf(f.st, servers, now, policy), |f.st.children|);
    var h := Quietest(Active(servers));
    assert h in servers && !h.draining;
  }

  lemma DownNamesQuietest(i: Input, liveChildren: nat)
    requires DecideLocalScaling(i, liveChildren).Down?
    ensures Active(i.servers) != []
        && DecideLocalScaling(i, liveChildren).serverId == Quietest(Active(i.servers)).serverId
  {
  }

  function Change(action: Action): int {
    if action.Up? then 1 else if action.Down? then -1 else 0
  }

  lemma TurnedCapacity(f: Fleet, marked: State, action: Action, now: int, newId: ServerId, byLoad: bool)
    requires Known(f.(st := marked)) && newId !in f.phases
    requires action.Down? ==> action.serverId in f.phases && f.phases[action.serverId] == Serving
    ensures
      var x := Turned(f, marked, action, now, newId, byLoad);
      Known(x) && Capacity(x) == Capacity(f) + Change(action)
  {
    match action {
      case Up => GrownCapacity(f, newId);
      case Down(id) => ShrunkCapacity(f, id);
      case Hold =>
    }
  }

  lemma MarkKnown(f: Fleet, servers: seq<Heartbeat>, load: real)
    requires Known(f) && Accurate(servers, f.phases, load)
    ensures Known(f.(st := f.st.(children := MarkAll(f.st.children, servers))))
  {
    LookCounts(f, servers, load);
    var marked := MarkAll(f.st.children, servers);
    assert forall id :: id in marked && f.phases[id] == Starting ==> id in Unseen(marked);
  }

  lemma LookCapacity(f: Fleet, servers: seq<Heartbeat>, now: int, newId: ServerId, load: real, policy: Policy)
    requires Known(f) && Possible(f, Look(servers, now, newId), load)
    ensures
      var x := Moved(f, Look(servers, now, newId), policy);
      Known(x) && Capacity(x) == Capacity(f) + Change(ActionOf(f.st, servers, now, policy))
  {
    MarkKnown(f, servers, load);
    var action := ActionOf(f.st, servers, now, policy);
    if action.Down? {
      DownIsServing(f, servers, now, load, policy);
    }
    TurnedCapacity(f, f.st.(children := MarkAll(f.st.children, servers)), action, now, newId,
                   |Active(servers)| + InputOf(f.st, servers, now, policy).starting >= policy.minServers);
  }

  /** The processes that come and go by themselves leave the capacity alone. */
  lemma OthersCapacity(f: Fleet, m: Move, load: real, policy: Policy)
    requires Known(f) && Possible(f, m, load) && !m.Look?
    ensures
      var x := Moved(f, m, policy);
      Known(x) && Capacity(x) == Capacity(f)
  {
    match m {
      case ComeUp(id) => ComeUpCapacity(f, id);
      case Leave(id) => LeaveCapacity(f, id);
      case _ =>
    }
  }

  lemma CapacityIsChildren(f: Fleet)
    requires Known(f)
    ensures Capacity(f) <= |f.st.children|
  {
    SizeIsKeys(f.st.children);
    var s, r := InPhase(f.phases, Starting), InPhase(f.phases, Serving);
    assert s !! r;
    assert |s + r| == |s| + |r|;
    SubsetSize(s + r, f.st.children.Keys);
  }

  /** At the minimum, the load that asks for one more server would not ask for one less after. */
  predicate Apart(p: Policy) {
    Times(p.scaleUpLoad, p.minServers) >= Times(p.scaleDownLoad, p.minServers + 1)
  }

  /** The thresholds are far enough apart, or there is no room to scale. */
  predicate Damped(p: Policy) {
    Apart(p) || p.minServers == p.maxServers
  }

  /** Thresholds apart at the minimum are so at every larger size. */
  lemma {:induction false} ApartAt(p: Policy, n: nat)
    requires Valid(p) && Apart(p) && n >= p.minServers
    ensures Times(p.scaleUpLoad, n) >= Times(p.scaleDownLoad, n + 1)
  {
    if n > p.minServers {
      ApartAt(p, n - 1);
    }
  }

  lemma {:induction false} TimesGrows(a: real, b: real, n: nat)
    requires a <= b
    ensures Times(a, n) <= Times(b, n) && (a < b && n > 0 ==> Times(a, n) < Times(b, n))
  {
    if n > 0 {
      TimesGrows(a, b, n - 1);
    }
  }

  /** Twice the lower threshold is always enough. */
  lemma TwiceIsDamped(p: Policy)
    requires Valid(p) && p.scaleUpLoad >= 2.0 * p.scaleDownLoad
    ensures Damped(p)
  {
    TwiceTimes(p.scaleDownLoad, p.minServers);
    TimesGrows(2.0 * p.scaleDownLoad, p.scaleUpLoad, p.minServers);
  }

  lemma {:induction false} TwiceTimes(x: real, n: nat)
    requires n > 0 && x >= 0.0
    ensures Times(2.0 * x, n) >= Times(x, n + 1)
  {
    if n > 1 {
      TwiceTimes(x, n - 1);
    } else {
      TimesIs(x, 2);
      TimesIs(2.0 * x, 1);
    }
  }

  /** What the past actions say about the load and the present size. */
  ghost predicate Settling(f: Fleet, load: real, p: Policy) {
    var n := Capacity(f);
    && Known(f) && |f.st.children| <= p.maxServers
    && (f.ups > 0 ==> f.downs == 0 && p.minServers + f.ups <= n && load > Times(p.scaleUpLoad, n - 1))
    && (f.downs > 0 ==>
        f.ups == 0 && p.minServers <= n && n + f.downs <= p.maxServers && load < Times(p.scaleDownLoad, n + 1))
  }

  /** What a load-driven decision says about the load and the size. */
  lemma DecisionMeans(f: Fleet, servers: seq<Heartbeat>, now: int, load: real, p: Policy)
    requires Known(f) && Valid(p) && Accurate(servers, f.phases, load)
    ensures
      var n := Capacity(f);
      var i := InputOf(f.st, servers, now, p);
      var action := ActionOf(f.st, servers, now, p);
      && |Active(servers)| + i.starting == n
      && (action.Up? && n >= p.minServers ==> load > Times(p.scaleUpLoad, n) && n < p.maxServers)
      && (action.Down? ==> n > p.minServers && load < Times(p.scaleDownLoad, n))
  {
    LookCounts(f, servers, load);
    var i := InputOf(f.st, servers, now, p);
    DecisionIsLoad(i, |f.st.children|);
    assert i.servers == servers && i.policy == p;
  }

  lemma DecisionIsLoad(i: Input, liveChildren: nat)
    requires Valid(i.policy)
    ensures
      var active := Active(i.servers);
      var n := |active| + i.starting;
      var action := DecideLocalScaling(i, liveChildren);
      && (action.Up? && n >= i.policy.minServers ==>
            active != [] && i.starting == 0 && TotalLoad(active) > Times(i.policy.scaleUpLoad, n)
                && n < i.policy.maxServers)
      && (action.Down? ==>
            active != [] && i.starting == 0 && n > i.policy.minServers
                && TotalLoad(active) < Times(i.policy.scaleDownLoad, n))
  {
  }

  /** After growing for load, shrinking for load is out of the question, and the other way round. */
  lemma StepsOneWay(n: nat, load: real, p: Policy, grows: bool)
    requires Valid(p) && Apart(p)
    ensures grows && n > p.minServers && load > Times(p.scaleUpLoad, n - 1) ==> !(load < Times(p.scaleDownLoad, n))
    ensures !grows && n >= p.minServers && load < Times(p.scaleDownLoad, n + 1) ==> !(load > Times(p.scaleUpLoad, n))
  {
    if n >= p.minServers {
      ApartAt(p, n);
    }
    if n > p.minServers {
      ApartAt(p, n - 1);
    }
  }

  /** What a decision taken at size `n` must look like. */
  ghost predicate Justified(action: Action, n: nat, byLoad: bool, load: real, p: Policy) {
    && (byLoad <==> n >= p.minServers)
    && (action.Up? && byLoad ==> load > Times(p.scaleUpLoad, n) && n < p.maxServers)
    && (action.Down? ==> n > p.minServers && load < Times(p.scaleDownLoad, n))
  }

  lemma TurnedSettles(f: Fleet, marked: State, action: Action, now: int, newId: ServerId, byLoad: bool, load: real,
      p: Policy)
    requires Valid(p) && Damped(p) && Settling(f, load, p) && Justified(action, Capacity(f), byLoad, load, p)
    requires
      var x := Turned(f, marked, action, now, newId, byLoad);
      Known(x) && Capacity(x) == Capacity(f) + Change(action) && |x.st.children| <= p.maxServers
    requires Capacity(f) <= p.maxServers
    ensures Settling(Turned(f, marked, action, now, newId, byLoad), load, p)
  {
    if Apart(p) {
      StepsOneWay(Capacity(f), load, p, true);
      StepsOneWay(Capacity(f), load, p, false);
    }
  }

  lemma LookSettles(f: Fleet, m: Move, load: real, p: Policy)
    requires Valid(p) && Damped(p) && Settling(f, load, p) && Possible(f, m, load) && m.Look?
    ensures Settling(Moved(f, m, p), load, p)
  {
    LookCapacity(f, m.servers, m.now, m.newId, load, p);
    CapacityIsChildren(f);
    DecisionMeans(f, m.servers, m.now, load, p);
    TickBounded(f.st, m.servers, m.now, m.newId, p);
    LookIsTick(f, m.servers, m.now, m.newId, p);
    TurnedSettles(f, f.st.(children := MarkAll(f.st.children, m.servers)), ActionOf(f.st, m.servers, m.now, p),
                  m.now, m.newId,
                  |Active(m.servers)| + InputOf(f.st, m.servers, m.now, p).starting >= p.minServers, load, p);
  }

  lemma MoveSettles(f: Fleet, m: Move, load: real, p: Policy)
    requires Valid(p) && Damped(p) && Settling(f, load, p) && Possible(f, m, load)
    ensures Settling(Moved(f, m, p), load, p)
  {
    if m.Look? {
      LookSettles(f, m, load, p);
    } else {
      OthersCapacity(f, m, load, p);
      if m.Leave? {
        ExitBounded(f.st, m.id);
      }
    }
  }

  /**
   The loop does not flap: under a constant load it never both grows and shrinks for load's sake, and it acts at
   most as often as there are sizes to go through.
   */
  lemma {:induction false} NeverFlaps(f: Fleet, moves: seq<Move>, end: Fleet, load: real, p: Policy)
    requires Valid(p) && Damped(p) && Settling(f, load, p) && Moves(f, moves, end, load, p)
    ensures end.ups == 0 || end.downs == 0
    ensures end.ups + end.downs <= p.maxServers - p.minServers
    decreases |moves|
  {
    CapacityIsChildren(f);
    if moves != [] {
      MoveSettles(f, moves[0], load, p);
      NeverFlaps(Moved(f, moves[0], p), moves[1..], end, load, p);
    }
  }

  // ---------------------------------------------------------------------------------------------
  // Without damping it does

  /** `n` serving servers, the first of which carries the whole load. */
  function Row(n: nat, load: real): seq<Heartbeat> {
    if n == 0 then []
    else Row(n - 1, load) + [Heartbeat(n - 1, false, 0, 0, 0, if n == 1 then 1000.0 * load else 0.0)]
  }

  function Rank(n: nat): set<ServerId> {
    if n == 0 then {} else Rank(n - 1) + {n - 1}
  }

  lemma {:induction false} RankIs(n: nat)
    ensures |Rank(n)| == n && forall id: ServerId :: id in Rank(n) <==> id < n
  {
    if n > 0 {
      RankIs(n - 1);
    }
  }

  lemma {:induction false} RowIds(n: nat, load: real)
    ensures |Row(n, load)| == n
    ensures forall i :: 0 <= i < n ==> Row(n, load)[i].serverId == i && !Row(n, load)[i].draining
  {
    if n > 0 {
      RowIds(n - 1, load);
    }
  }

  lemma {:induction false} AllActive(servers: seq<Heartbeat>)
    requires forall i :: 0 <= i < |servers| ==> !servers[i].draining
    ensures Active(servers) == servers
    decreases |servers|
  {
    if servers != [] {
      AllActive(servers[..|servers| - 1]);
    }
  }

  lemma TotalSnoc(servers: seq<Heartbeat>, h: Heartbeat)
    ensures TotalLoad(servers + [h]) == TotalLoad(servers) + ServerLoad(h)
  {
    assert (servers + [h])[..|servers|] == servers;
  }

  lemma {:induction false} RowTotal(n: nat, load: real)
    ensures TotalLoad(Row(n, load)) == if n == 0 then 0.0 else load
  {
    if n > 0 {
      RowTotal(n - 1, load);
      TotalSnoc(Row(n - 1, load), Heartbeat(n - 1, false, 0, 0, 0, if n == 1 then 1000.0 * load else 0.0));
    }
  }

  lemma RowIs(n: nat, load: real)
    ensures |Row(n, load)| == n && Active(Row(n, load)) == Row(n, load)
    ensures forall i :: 0 <= i < n ==> Row(n, load)[i].serverId == i && !Row(n, load)[i].draining
    ensures TotalLoad(Row(n, load)) == if n == 0 then 0.0 else load
  {
    RowIds(n, load);
    AllActive(Row(n, load));
    RowTotal(n, load);
  }

  function AllServing(n: nat): map<ServerId, Phase> {
    map id | id in Rank(n) :: Serving
  }

  lemma RowAlive(n: nat, load: real)
    ensures OncePerServer(Row(n, load)) && Active(Row(n, load)) == Row(n, load)
    ensures forall h :: h in Row(n, load) ==> h.serverId < n && !h.draining
    ensures forall id: ServerId :: id < n ==> Alive(Row(n, load), id)
  {
    RowIds(n, load);
    AllActive(Row(n, load));
    forall id: ServerId | id < n ensures Alive(Row(n, load), id) {
      assert Row(n, load)[id] in Row(n, load);
    }
  }

  lemma RowAccurate(n: nat, load: real)
    ensures Accurate(Row(n, load), AllServing(n), load)
  {
    RowAlive(n, load);
    RowTotal(n, load);
    RankIs(n);
  }

  /** `n` serving children and nothing done so far. */
  function Calm(n: nat): Fleet {
    Fleet(State(map id | id in Rank(n) :: Child(true, false), None), AllServing(n), 0, 0)
  }

  lemma CalmInput(st: State, n: nat, load: real, now: int, p: Policy)
    requires n > 0 && st.children.Keys == Rank(n)
    ensures
      var i := InputOf(st, Row(n, load), now, p);
      && i.starting == 0 && Active(i.servers) == i.servers && |i.servers| == n && TotalLoad(i.servers) == load
      && |st.children| == n
  {
    var servers := Row(n, load);
    RowIs(n, load);
    RankIs(n);
    SizeIsKeys(st.children);
    RowAccurate(n, load);
    assert Unseen(MarkAll(st.children, servers)) == {};
  }

  /** The decision on servers that are all active, after any cooldown. */
  lemma CalmDecides(i: Input, liveChildren: nat)
    requires Valid(i.policy) && i.starting == 0 && Active(i.servers) == i.servers
    requires i.policy.minServers <= |i.servers| == liveChildren
    requires i.lastActionAt.Some? ==> i.now - i.lastActionAt.value >= i.policy.cooldownMs
    ensures
      var n, load := |i.servers|, TotalLoad(i.servers);
      var action := DecideLocalScaling(i, liveChildren);
      && (n < i.policy.maxServers && load > Times(i.policy.scaleUpLoad, n) ==> action.Up?)
      && (n > i.policy.minServers && load < Times(i.policy.scaleDownLoad, n) <= Times(i.policy.scaleUpLoad, n)
          ==> action.Down?)
  {
  }

  lemma CalmLook(st: State, n: nat, load: real, now: int, p: Policy)
    requires Valid(p) && p.minServers <= n && st.children.Keys == Rank(n)
    requires st.lastActionAt.Some? ==> now - st.lastActionAt.value >= p.cooldownMs
    ensures
      var action := ActionOf(st, Row(n, load), now, p);
      && (n < p.maxServers && load > Times(p.scaleUpLoad, n) ==> action.Up?)
      && (n > p.minServers && load < Times(p.scaleDownLoad, n) <= Times(p.scaleUpLoad, n) ==> action.Down?)
  {
    CalmInput(st, n, load, now, p);
    CalmDecides(InputOf(st, Row(n, load), now, p), |st.children|);
  }

  /** A load between the two thresholds, taken at the minimum and at one more. */
  function Between(p: Policy): real {
    (Times(p.scaleUpLoad, p.minServers) + Times(p.scaleDownLoad, p.minServers + 1)) / 2.0
  }

  lemma BetweenIs(p: Policy)
    requires !Apart(p)
    ensures Times(p.scaleUpLoad, p.minServers) < Between(p) < Times(p.scaleDownLoad, p.minServers + 1)
  {
  }

  /** Children that were seen stay as they are when no heartbeat is draining. */
  lemma CalmMarked(n: nat, servers: seq<Heartbeat>)
    requires forall h :: h in servers ==> !h.draining
    ensures MarkAll(Calm(n).st.children, servers) == Calm(n).st.children
  {
  }

  /** From here some run under the load both grows and shrinks. */
  ghost predicate Wobbles(f: Fleet, load: real, p: Policy) {
    exists moves: seq<Move>, end: Fleet :: Moves(f, moves, end, load, p) && end.ups > 0 && end.downs > 0
  }

  lemma WobblesBack(f: Fleet, m: Move, load: real, p: Policy)
    requires Possible(f, m, load) && Wobbles(Moved(f, m, p), load, p)
    ensures Wobbles(f, load, p)
  {
    var moves, end :| Moves(Moved(f, m, p), moves, end, load, p) && end.ups > 0 && end.downs > 0;
    assert ([m] + moves)[1..] == moves;
    assert Moves(f, [m] + moves, end, load, p);
  }

  lemma DoneWobbles(f: Fleet, load: real, p: Policy)
    requires f.ups > 0 && f.downs > 0
    ensures Wobbles(f, load, p)
  {
    assert Moves(f, [], f, load, p);
  }

  lemma ShrinkWobbles(f: Fleet, n: nat, load: real, p: Policy)
    requires Valid(p) && n > p.minServers && load < Times(p.scaleDownLoad, n) && f.ups > 0
    requires f.phases == AllServing(n) && f.st.children.Keys == Rank(n) && f.st.lastActionAt == Some(0)
    ensures Wobbles(f, load, p)
  {
    RankIs(n);
    RowAccurate(n, load);
    TimesGrows(p.scaleDownLoad, p.scaleUpLoad, n);
    CalmLook(f.st, n, load, p.cooldownMs, p);
    var m := Look(Row(n, load), p.cooldownMs, n);
    DoneWobbles(Moved(f, m, p), load, p);
    WobblesBack(f, m, load, p);
  }

  lemma ComeUpWobbles(f: Fleet, n: nat, load: real, p: Policy)
    requires Valid(p) && n + 1 > p.minServers && load < Times(p.scaleDownLoad, n + 1) && f.ups > 0
    requires f.phases == AllServing(n)[n := Starting] && f.st.children.Keys == Rank(n + 1)
        && f.st.lastActionAt == Some(0)
    ensures Wobbles(f, load, p)
  {
    RankIs(n);
    RankIs(n + 1);
    assert f.phases[n := Serving] == AllServing(n + 1);
    ShrinkWobbles(Moved(f, ComeUp(n), p), n + 1, load, p);
    WobblesBack(f, ComeUp(n), load, p);
  }

  /** Looking at a calm row while the load is too high for it makes the fleet grow by one. */
  lemma GrowsOnce(n: nat, load: real, p: Policy) returns (m: Move, f: Fleet)
    requires Valid(p) && n == p.minServers < p.maxServers && load > Times(p.scaleUpLoad, n)
    ensures Possible(Calm(n), m, load) && f == Moved(Calm(n), m, p)
    ensures f.ups == 1 && f.phases == AllServing(n)[n := Starting]
    ensures f.st.children.Keys == Rank(n + 1) && f.st.lastActionAt == Some(0)
  {
    m := Look(Row(n, load), 0, n);
    CalmPossible(n, load);
    CalmTurns(n, load, p);
    TurnedUp(n);
    f := Moved(Calm(n), m, p);
  }

  lemma CalmPossible(n: nat, load: real)
    ensures Possible(Calm(n), Look(Row(n, load), 0, n), load)
  {
    RankIs(n);
    RowAccurate(n, load);
  }

  lemma CalmTurns(n: nat, load: real, p: Policy)
    requires Valid(p) && n == p.minServers < p.maxServers && load > Times(p.scaleUpLoad, n)
    ensures Moved(Calm(n), Look(Row(n, load), 0, n), p) == Turned(Calm(n), Calm(n).st, Up, 0, n, true)
  {
    CalmLook(Calm(n).st, n, load, 0, p);
    CalmInput(Calm(n).st, n, load, 0, p);
    CalmMarked(n, Row(n, load));
  }

  lemma TurnedUp(n: nat)
    ensures
      var x := Turned(Calm(n), Calm(n).st, Up, 0, n, true);
      && x.ups == 1 && x.phases == AllServing(n)[n := Starting]
      && x.st.children.Keys == Rank(n + 1) && x.st.lastActionAt == Some(0)
  {
  }

  /** Without damping the loop flaps: from the minimum, one constant load makes it grow and then shrink. */
  lemma Flaps(p: Policy)
    requires Valid(p) && !Damped(p)
    ensures exists load: real :: Wobbles(Calm(p.minServers), load, p)
  {
    BetweenIs(p);
    var m, f := GrowsOnce(p.minServers, Between(p), p);
    ComeUpWobbles(f, p.minServers, Between(p), p);
    WobblesBack(Calm(p.minServers), m, Between(p), p);
  }

  /** No constant load makes a loop that starts settled grow and shrink. */
  ghost predicate Steady(p: Policy) {
    forall f, load :: Settling(f, load, p) ==> !Wobbles(f, load, p)
  }

  lemma CalmSettles(load: real, p: Policy)
    requires Valid(p)
    ensures Settling(Calm(p.minServers), load, p)
  {
    var f := Calm(p.minServers);
    RankIs(p.minServers);
    SizeIsKeys(f.st.children);
    assert f.st.children.Keys == Rank(p.minServers);
  }

  /** The loop is steady if and only if its thresholds are far enough apart or there is no room to scale. */
  lemma SteadyExactly(p: Policy)
    requires Valid(p)
    ensures Steady(p) <==> Damped(p)
  {
    if Damped(p) {
      forall f, load | Settling(f, load, p) ensures !Wobbles(f, load, p) {
        forall moves, end | Moves(f, moves, end, load, p) ensures end.ups == 0 || end.downs == 0 {
          NeverFlaps(f, moves, end, load, p);
        }
      }
    } else {
      Flaps(p);
      var load :| Wobbles(Calm(p.minServers), load, p);
      CalmSettles(load, p);
    }
  }
}
